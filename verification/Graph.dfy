/** Directed graphs as edge lists, and what can be reached along their edges. */
module Graph {

  datatype Edge = Edge(source: string, target: string)

  predicate Linked(edges: seq<Edge>, a: string, b: string) {
    exists i :: 0 <= i < |edges| && edges[i].source == a && edges[i].target == b
  }

  ghost predicate IsPath(edges: seq<Edge>, path: seq<string>) {
    path != [] && forall i :: 0 <= i < |path| - 1 ==> Linked(edges, path[i], path[i + 1])
  }

  ghost predicate Reaches(edges: seq<Edge>, a: string, b: string) {
    exists path :: IsPath(edges, path) && path[0] == a && path[|path| - 1] == b
  }

  lemma ReachesItself(edges: seq<Edge>, a: string)
    ensures Reaches(edges, a, a)
  {
    assert IsPath(edges, [a]);
  }

  lemma OneStep(edges: seq<Edge>, a: string, b: string, c: string)
    requires Reaches(edges, a, b) && Linked(edges, b, c)
    ensures Reaches(edges, a, c)
  {
    var path :| IsPath(edges, path) && path[0] == a && path[|path| - 1] == b;
    assert IsPath(edges, path + [c]);
  }

  lemma ReachesTransitive(edges: seq<Edge>, a: string, b: string, c: string)
    requires Reaches(edges, a, b) && Reaches(edges, b, c)
    ensures Reaches(edges, a, c)
  {
    var p :| IsPath(edges, p) && p[0] == a && p[|p| - 1] == b;
    var q :| IsPath(edges, q) && q[0] == b && q[|q| - 1] == c;
    var path := p + q[1..];
    forall i | 0 <= i < |path| - 1 ensures Linked(edges, path[i], path[i + 1]) {
      if i < |p| - 1 {
        assert path[i] == p[i] && path[i + 1] == p[i + 1];
      } else {
        assert path[i] == q[i - (|p| - 1)] && path[i + 1] == q[i - (|p| - 1) + 1];
      }
    }
    assert IsPath(edges, path);
  }

  lemma PathBefore(edges: seq<Edge>, path: seq<string>)
    requires IsPath(edges, path) && |path| > 1
    ensures IsPath(edges, path[..|path| - 1]) && Linked(edges, path[|path| - 2], path[|path| - 1])
  {
    var n := |path|;
    assert Linked(edges, path[n - 2], path[n - 2 + 1]);
    var init := path[..n - 1];
    forall i | 0 <= i < n - 2 ensures Linked(edges, init[i], init[i + 1]) {
      assert Linked(edges, path[i], path[i + 1]);
    }
  }

  /** No edge leaves the set. */
  ghost predicate Closed(edges: seq<Edge>, s: set<string>) {
    forall i :: 0 <= i < |edges| && edges[i].source in s ==> edges[i].target in s
  }

  lemma {:induction false} ClosedHoldsPaths(edges: seq<Edge>, s: set<string>, path: seq<string>)
    requires IsPath(edges, path) && path[0] in s && Closed(edges, s)
    ensures path[|path| - 1] in s
  {
    if |path| > 1 {
      assert Linked(edges, path[0], path[1]);
      forall i | 0 <= i < |path| - 2 ensures Linked(edges, path[1..][i], path[1..][i + 1]) {
        assert Linked(edges, path[i + 1], path[i + 1 + 1]);
      }
      ClosedHoldsPaths(edges, s, path[1..]);
    }
  }

  /** What is reached from inside a closed set stays inside it. */
  lemma ClosedHoldsReached(edges: seq<Edge>, s: set<string>, a: string, b: string)
    requires Closed(edges, s) && a in s && Reaches(edges, a, b)
    ensures b in s
  {
    var path :| IsPath(edges, path) && path[0] == a && path[|path| - 1] == b;
    ClosedHoldsPaths(edges, s, path);
  }
}
