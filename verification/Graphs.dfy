/** Finite directed graphs given by successor lists, and reachability along non-empty chains. */
module Graphs {

  type Graph = map<nat, seq<nat>>

  ghost predicate Edge(g: Graph, a: nat, b: nat) {
    a in g && b in g[a]
  }

  /** Consecutive entries of p are edges of g. */
  ghost predicate IsChain(g: Graph, p: seq<nat>) {
    forall i :: 0 <= i < |p| - 1 ==> Edge(g, p[i], p[i + 1])
  }

  ghost predicate ChainBetween(g: Graph, p: seq<nat>, a: nat, b: nat) {
    |p| >= 2 && p[0] == a && p[|p| - 1] == b && IsChain(g, p)
  }

  /** Some chain of at least one edge leads from a to b. */
  ghost predicate Reaches(g: Graph, a: nat, b: nat) {
    exists p :: ChainBetween(g, p, a, b)
  }

  ghost predicate SubGraph(g: Graph, h: Graph) {
    forall a, b :: Edge(g, a, b) ==> Edge(h, a, b)
  }

  /** Every edge climbs: a certificate that the graph has no cycle. */
  ghost predicate Ranked(g: Graph, rank: nat -> nat) {
    forall a, b :: Edge(g, a, b) ==> rank(a) < rank(b)
  }

  ghost predicate Acyclic(g: Graph) {
    forall a :: !Reaches(g, a, a)
  }

  lemma EdgeReaches(g: Graph, a: nat, b: nat)
    requires Edge(g, a, b)
    ensures Reaches(g, a, b)
  {
    assert ChainBetween(g, [a, b], a, b);
  }

  lemma Prepend(g: Graph, a: nat, b: nat, c: nat)
    requires Edge(g, a, b) && Reaches(g, b, c)
    ensures Reaches(g, a, c)
  {
    var p :| ChainBetween(g, p, b, c);
    var q := [a] + p;
    forall i | 0 <= i < |q| - 1 ensures Edge(g, q[i], q[i + 1]) {
      if i > 0 { assert q[i] == p[i - 1] && q[i + 1] == p[i]; }
    }
    assert ChainBetween(g, q, a, c);
  }

  lemma Append(g: Graph, a: nat, b: nat, c: nat)
    requires Reaches(g, a, b) && Edge(g, b, c)
    ensures Reaches(g, a, c)
  {
    var p :| ChainBetween(g, p, a, b);
    var q := p + [c];
    forall i | 0 <= i < |q| - 1 ensures Edge(g, q[i], q[i + 1]) {
      if i < |p| - 1 { assert q[i] == p[i] && q[i + 1] == p[i + 1]; }
    }
    assert ChainBetween(g, q, a, c);
  }

  /** The first step of a chain, and what is left of it. */
  lemma FirstStep(g: Graph, a: nat, c: nat) returns (b: nat)
    requires Reaches(g, a, c)
    ensures Edge(g, a, b) && (b == c || Reaches(g, b, c))
  {
    var p :| ChainBetween(g, p, a, c);
    b := p[1];
    assert Edge(g, p[0], p[1]);
    if |p| > 2 {
      var q := p[1..];
      forall i | 0 <= i < |q| - 1 ensures Edge(g, q[i], q[i + 1]) {
        assert Edge(g, p[i + 1], p[i + 2]);
      }
      assert ChainBetween(g, q, b, c);
    }
  }

  lemma ReachesInSuperGraph(g: Graph, h: Graph, a: nat, b: nat)
    requires SubGraph(g, h) && Reaches(g, a, b)
    ensures Reaches(h, a, b)
  {
    var p :| ChainBetween(g, p, a, b);
    assert ChainBetween(h, p, a, b);
  }

  /** A set that holds a and every successor of its members, none of which is b, shows that b is out of reach. */
  lemma ClosedSetBlocks(g: Graph, closed: set<nat>, a: nat, b: nat)
    requires a in closed
    requires forall x, y :: x in closed && Edge(g, x, y) ==> y != b && (y in g ==> y in closed)
    ensures !Reaches(g, a, b)
  {
    if Reaches(g, a, b) {
      var p :| ChainBetween(g, p, a, b);
      ChainStaysInside(g, closed, p, |p| - 2, b);
    }
  }

  lemma {:induction false} ChainStaysInside(g: Graph, closed: set<nat>, p: seq<nat>, i: nat, b: nat)
    requires i < |p| - 1 && IsChain(g, p) && p[0] in closed
    requires forall x, y :: x in closed && Edge(g, x, y) ==> y != b && (y in g ==> y in closed)
    ensures p[i] in closed && p[i + 1] != b
  {
    assert Edge(g, p[i], p[i + 1]);
    if i == 0 {
    } else {
      ChainStaysInside(g, closed, p, i - 1, b);
      assert Edge(g, p[i - 1], p[i]);
    }
  }

  lemma {:induction false} RankClimbs(g: Graph, rank: nat -> nat, p: seq<nat>, i: nat)
    requires Ranked(g, rank) && IsChain(g, p) && 0 < i < |p|
    ensures rank(p[0]) < rank(p[i])
  {
    assert Edge(g, p[i - 1], p[i]);
    if i <= 1 {
    } else {
      RankClimbs(g, rank, p, i - 1);
    }
  }

  lemma RankedIsAcyclic(g: Graph, rank: nat -> nat)
    requires Ranked(g, rank)
    ensures Acyclic(g)
  {
    forall a ensures !Reaches(g, a, a) {
      if Reaches(g, a, a) {
        var p :| ChainBetween(g, p, a, a);
        RankClimbs(g, rank, p, |p| - 1);
      }
    }
  }

  /** Adding the edge (a, b) keeps a ranking when b neither is a nor reaches a: lift b and all that it reaches. */
  lemma RankNewEdge(g: Graph, rank: nat -> nat, h: Graph, a: nat, b: nat) returns (lifted: nat -> nat)
    requires Ranked(g, rank)
    requires a != b && !Reaches(g, b, a)
    requires forall x, y :: Edge(h, x, y) ==> Edge(g, x, y) || (x == a && y == b)
    ensures Ranked(h, lifted)
  {
    lifted := x => if x == b || Reaches(g, b, x) then rank(x) + rank(a) + 1 else rank(x);
    forall x, y | Edge(h, x, y) ensures lifted(x) < lifted(y) {
      if Edge(g, x, y) {
        if x == b {
          EdgeReaches(g, x, y);
        } else if Reaches(g, b, x) {
          Append(g, b, x, y);
        }
      }
    }
  }
}
