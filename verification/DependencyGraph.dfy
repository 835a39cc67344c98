/** Reachability in the graph of registered tokens, and when a token can be built. */
module DependencyGraph {

  type Token = nat
  type Graph = map<Token, seq<Token>>

  predicate Edge(g: Graph, a: Token, b: Token) { a in g && b in g[a] }

  predicate IsPath(g: Graph, p: seq<Token>) {
    |p| > 0 && forall i :: 0 <= i < |p| - 1 ==> Edge(g, p[i], p[i + 1])
  }

  predicate Connects(g: Graph, p: seq<Token>, a: Token, b: Token) { IsPath(g, p) && p[0] == a && p[|p| - 1] == b }

  /** By any path, the empty one included, and by at least one edge. */
  ghost predicate Reaches(g: Graph, a: Token, b: Token) { exists p :: Connects(g, p, a, b) }

  ghost predicate ReachesStrictly(g: Graph, a: Token, b: Token) { exists p :: Connects(g, p, a, b) && |p| > 1 }

  /** Every reachable token is registered and none lies on a cycle. */
  ghost predicate Buildable(g: Graph, t: Token) {
    forall u :: Reaches(g, t, u) ==> u in g && !ReachesStrictly(g, u, u)
  }

  lemma ReachesItself(g: Graph, t: Token)
    ensures Reaches(g, t, t)
  {
    assert Connects(g, [t], t, t);
  }

  lemma PathsJoin(g: Graph, p: seq<Token>, q: seq<Token>, a: Token, b: Token, c: Token)
    requires Connects(g, p, a, b) && Connects(g, q, b, c)
    ensures Connects(g, p + q[1..], a, c)
  {
    var r := p + q[1..];
    forall i | 0 <= i < |r| - 1 ensures Edge(g, r[i], r[i + 1]) {
      if i >= |p| - 1 { assert r[i] == q[i - (|p| - 1)] && r[i + 1] == q[i + 1 - (|p| - 1)]; }
    }
  }

  lemma EdgeThenReach(g: Graph, a: Token, d: Token, u: Token)
    requires Edge(g, a, d) && Reaches(g, d, u)
    ensures ReachesStrictly(g, a, u) && Reaches(g, a, u)
  {
    var q :| Connects(g, q, d, u);
    assert Connects(g, [a, d], a, d);
    PathsJoin(g, [a, d], q, a, d, u);
    assert Connects(g, [a, d] + q[1..], a, u);
  }

  /** A path of at least one edge starts with an edge. */
  lemma FirstEdge(g: Graph, p: seq<Token>, a: Token, b: Token)
    requires Connects(g, p, a, b) && |p| > 1
    ensures Edge(g, a, p[1]) && Connects(g, p[1..], p[1], b) && Reaches(g, p[1], b)
  {
    assert Edge(g, p[0], p[1]);
    assert forall i :: 0 <= i < |p[1..]| - 1 ==> p[1..][i] == p[i + 1] && Edge(g, p[i + 1], p[i + 2]);
    assert Connects(g, p[1..], p[1], b);
  }

  lemma CycleGoesThroughADependency(g: Graph, t: Token)
    requires ReachesStrictly(g, t, t)
    ensures exists d :: Edge(g, t, d) && Reaches(g, d, d) && ReachesStrictly(g, d, d)
  {
    var p :| Connects(g, p, t, t) && |p| > 1;
    FirstEdge(g, p, t, t);
    var d := p[1];
    assert Connects(g, [t, d], t, d);
    PathsJoin(g, p[1..], [t, d], d, t, d);
    assert Connects(g, p[1..] + [t, d][1..], d, d);
    ReachesItself(g, d);
  }

  lemma PathPrefix(g: Graph, p: seq<Token>)
    requires IsPath(g, p) && |p| > 1
    ensures IsPath(g, p[..|p| - 1]) && p[..|p| - 1][0] == p[0]
  {
    var q := p[..|p| - 1];
    forall i | 0 <= i < |q| - 1 ensures Edge(g, q[i], q[i + 1]) { assert Edge(g, p[i], p[i + 1]); }
  }

  lemma PathExtends(g: Graph, p: seq<Token>, a: Token, b: Token, c: Token)
    requires Connects(g, p, a, b) && Edge(g, b, c)
    ensures Connects(g, p + [c], a, c)
  {
  }

  /** What a resolver can check locally is the global condition. */
  lemma BuildableStep(g: Graph, t: Token)
    ensures Buildable(g, t) <==> t in g && forall d :: d in g[t] ==> Buildable(g, d)
  {
    ReachesItself(g, t);
    if Buildable(g, t) {
      forall d | d in g[t] ensures Buildable(g, d) {
        forall u | Reaches(g, d, u) ensures u in g && !ReachesStrictly(g, u, u) { EdgeThenReach(g, t, d, u); }
      }
    }
    if t in g && forall d :: d in g[t] ==> Buildable(g, d) {
      forall u | Reaches(g, t, u) ensures u in g && !ReachesStrictly(g, u, u) {
        var p :| Connects(g, p, t, u);
        if |p| > 1 {
          FirstEdge(g, p, t, u);
        } else if ReachesStrictly(g, t, t) {
          CycleGoesThroughADependency(g, t);
          assert false;
        }
      }
    }
  }

  /** Two adjacent entries of a path to an edge: everything on the path reaches the next token. */
  lemma StackReaches(g: Graph, stack: seq<Token>, t: Token, s: Token)
    requires IsPath(g, stack) && Edge(g, stack[|stack| - 1], t) && s in stack
    ensures ReachesStrictly(g, s, t)
  {
    var i :| 0 <= i < |stack| && stack[i] == s;
    var p := stack[i..] + [t];
    forall k | 0 <= k < |p| - 1 ensures Edge(g, p[k], p[k + 1]) {
      if k < |stack[i..]| - 1 { assert Edge(g, stack[i + k], stack[i + k + 1]); }
    }
    assert Connects(g, p, s, t);
  }

  /** Registering a token for the first time changes nothing about what was buildable. */
  lemma NewTokenKeepsBuildable(g: Graph, g': Graph, added: Token, t: Token)
    requires added !in g && g'.Keys == g.Keys + {added} && (forall k :: k in g ==> g'[k] == g[k]) && Buildable(g, t)
    ensures Buildable(g', t)
  {
    forall u | Reaches(g', t, u) ensures u in g' && !ReachesStrictly(g', u, u) {
      var p :| Connects(g', p, t, u);
      PathStaysInside(g, g', added, t, p);
      if q :| Connects(g', q, u, u) && |q| > 1 {
        ReachedIsBuildable(g, t, u);
        PathStaysInside(g, g', added, u, q);
        assert false;
      }
    }
  }

  lemma ReachedIsBuildable(g: Graph, t: Token, u: Token)
    requires Buildable(g, t) && Reaches(g, t, u)
    ensures Buildable(g, u)
  {
    var p :| Connects(g, p, t, u);
    forall v | Reaches(g, u, v) ensures v in g && !ReachesStrictly(g, v, v) {
      var q :| Connects(g, q, u, v);
      PathsJoin(g, p, q, t, u, v);
      assert Reaches(g, t, v);
    }
  }

  lemma {:induction false} PathStaysInside(g: Graph, g': Graph, added: Token, t: Token, p: seq<Token>)
    requires added !in g && g'.Keys == g.Keys + {added} && (forall k :: k in g ==> g'[k] == g[k]) && Buildable(g, t)
    requires IsPath(g', p) && p[0] == t
    ensures Connects(g, p, t, p[|p| - 1]) && p[|p| - 1] in g
    decreases |p|
  {
    if |p| == 1 {
      assert Connects(g, p, t, t);
    } else {
      var n := |p| - 1;
      PathPrefix(g', p);
      PathStaysInside(g, g', added, t, p[..n]);
      assert Edge(g', p[n - 1], p[n]);
      PathExtends(g, p[..n], t, p[n - 1], p[n]);
      assert p[..n] + [p[n]] == p;
      assert Reaches(g, t, p[n]);
    }
  }
}
