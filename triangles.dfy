/** Triangle enumeration (enumerate_triangles): every directed 3-cycle of
    the discovered edges, in all three rotations, without duplicates. */
module Triangles {
  import opened Discovery

  type Triple = (string, string, string)

  /** A directed edge x -> y among the discovered pools (any fee). */
  predicate HasEdge(pools: seq<ActivePool>, x: string, y: string) {
    exists p :: p in pools && p.tokenA == x && p.tokenB == y
  }

  /** (a, b, c) is a directed 3-cycle a -> b -> c -> a of distinct tokens. */
  predicate IsTriangle(pools: seq<ActivePool>, t: Triple) {
    && HasEdge(pools, t.0, t.1) && HasEdge(pools, t.1, t.2) && HasEdge(pools, t.2, t.0)
    && t.0 != t.1 && t.1 != t.2 && t.2 != t.0
  }

  predicate NoDuplicates<T(==)>(s: seq<T>) {
    forall i, j :: 0 <= i < j < |s| ==> s[i] != s[j]
  }

  /** The adjacency map built with setdefault(...).add(...). */
  function Adjacency(pools: seq<ActivePool>): map<string, set<string>>
    decreases |pools|
  {
    if pools == [] then map[]
    else
      var m := Adjacency(pools[..|pools| - 1]);
      var p := pools[|pools| - 1];
      m[p.tokenA := (if p.tokenA in m then m[p.tokenA] else {}) + {p.tokenB}]
  }

  /** The adjacency map holds exactly the discovered directed edges. */
  lemma {:induction false} AdjacencyEdges(pools: seq<ActivePool>)
    ensures forall x, y :: x in Adjacency(pools) && y in Adjacency(pools)[x] <==> HasEdge(pools, x, y)
    decreases |pools|
  {
    if pools != [] {
      var n := |pools| - 1;
      AdjacencyEdges(pools[..n]);
      assert pools == pools[..n] + [pools[n]];
      forall x, y | HasEdge(pools, x, y)
        ensures x in Adjacency(pools) && y in Adjacency(pools)[x]
      {
        var p :| p in pools && p.tokenA == x && p.tokenB == y;
        if p != pools[n] {
          assert p in pools[..n];
          assert HasEdge(pools[..n], x, y);
        }
      }
      forall x, y | x in Adjacency(pools) && y in Adjacency(pools)[x]
        ensures HasEdge(pools, x, y)
      {
        if !(x == pools[n].tokenA && y == pools[n].tokenB) {
          assert HasEdge(pools[..n], x, y);
          var p :| p in pools[..n] && p.tokenA == x && p.tokenB == y;
          assert p in pools;
        } else {
          assert pools[n] in pools;
        }
      }
    }
  }

  /** dict.fromkeys: the first occurrence of each element, in order. */
  function Dedup<T(==)>(s: seq<T>): seq<T>
    decreases |s|
  {
    if s == [] then []
    else
      var pre := s[..|s| - 1];
      Dedup(pre) + (if s[|s| - 1] in pre then [] else [s[|s| - 1]])
  }

  lemma {:induction false} DedupProperties<T>(s: seq<T>)
    ensures forall x :: x in Dedup(s) <==> x in s
    ensures NoDuplicates(Dedup(s))
    decreases |s|
  {
    if s != [] {
      var n := |s| - 1;
      var pre := s[..n];
      DedupProperties(pre);
      assert s == pre + [s[n]];
      var d := Dedup(pre);
      if s[n] !in pre {
        assert Dedup(s) == d + [s[n]];
        forall i, j | 0 <= i < j < |Dedup(s)| ensures Dedup(s)[i] != Dedup(s)[j] {
          if j == |d| {
            assert Dedup(s)[i] == d[i];
            assert d[i] in d;
          } else {
            assert Dedup(s)[i] == d[i] && Dedup(s)[j] == d[j];
          }
        }
      }
    }
  }

  /** The first elements of the pools, in order: the order in which
      setdefault first inserts each key into adj. */
  function Sources(pools: seq<ActivePool>): seq<string>
    decreases |pools|
  {
    if pools == [] then [] else Sources(pools[..|pools| - 1]) + [pools[|pools| - 1].tokenA]
  }

  /** The list is made of consecutive groups (a, b, c), (b, c, a), (c, a, b),
      as rotations.extend builds it. */
  predicate Grouped(s: seq<Triple>)
    decreases |s|
  {
    if s == [] then true
    else |s| >= 3 && s[1] == (s[0].1, s[0].2, s[0].0) && s[2] == (s[0].2, s[0].0, s[0].1) && Grouped(s[3..])
  }

  lemma {:induction false} GroupedAppend(s: seq<Triple>, t: seq<Triple>)
    requires Grouped(s) && Grouped(t)
    ensures Grouped(s + t)
    decreases |s|
  {
    if s == [] {
      assert s + t == t;
    } else {
      GroupedAppend(s[3..], t);
      assert (s + t)[3..] == s[3..] + t;
    }
  }

  /** One group of three rotations. */
  lemma GroupOfThree(a: string, b: string, c: string)
    ensures Grouped([(a, b, c), (b, c, a), (c, a, b)])
  {
    assert [(a, b, c), (b, c, a), (c, a, b)][3..] == [];
  }

  /** Every triple in the list is a triangle. */
  ghost predicate AllTriangles(pools: seq<ActivePool>, s: seq<Triple>) {
    forall t :: t in s ==> IsTriangle(pools, t)
  }

  /** enumerate_triangles. The start tokens are taken in the insertion order
      of adj; the order in which Python iterates a set of successors is not
      specified, so successors are taken in an arbitrary order. The result
      is the first-seen de-duplication of the rotations listed in groups of
      three, and the same set of triples whatever that order. */
  method EnumerateTriangles(pools: seq<ActivePool>) returns (triangles: seq<Triple>, rotations: seq<Triple>)
    ensures forall t :: t in triangles <==> IsTriangle(pools, t)
    ensures NoDuplicates(triangles)
    ensures Grouped(rotations) && (forall t :: t in rotations <==> IsTriangle(pools, t))
    ensures triangles == Dedup(rotations)
    ensures forall t :: t in triangles ==> (t.1, t.2, t.0) in triangles && (t.2, t.0, t.1) in triangles
    ensures pools == [] ==> triangles == []
  {
    var adj, tokens := BuildAdjacency(pools);
    AdjacencyEdges(pools);
    rotations := EmitAll(pools, adj, tokens);
    DedupProperties(rotations);
    triangles := Dedup(rotations);
    forall t | t in triangles
      ensures (t.1, t.2, t.0) in triangles && (t.2, t.0, t.1) in triangles
    {
      assert IsTriangle(pools, (t.1, t.2, t.0)) && IsTriangle(pools, (t.2, t.0, t.1));
    }
  }

  /** The first loop of enumerate_triangles: the adjacency map and its
      keys in insertion order. */
  method BuildAdjacency(pools: seq<ActivePool>) returns (adj: map<string, set<string>>, tokens: seq<string>)
    ensures adj == Adjacency(pools)
    ensures tokens == Dedup(Sources(pools))
    ensures forall x :: x in adj <==> x in tokens
  {
    adj := map[];
    tokens := [];
    for i := 0 to |pools|
      invariant adj == Adjacency(pools[..i])
      invariant tokens == Dedup(Sources(pools[..i]))
      invariant forall x :: x in adj <==> x in Sources(pools[..i])
    {
      var p := pools[i];
      ghost var src := Sources(pools[..i]);
      assert pools[..i + 1][..i] == pools[..i] && pools[..i + 1][i] == p;
      assert Sources(pools[..i + 1]) == src + [p.tokenA];
      assert (src + [p.tokenA])[..|src|] == src;
      if p.tokenA !in adj {
        tokens := tokens + [p.tokenA];
      }
      adj := adj[p.tokenA := (if p.tokenA in adj then adj[p.tokenA] else {}) + {p.tokenB}];
    }
    assert pools[..|pools|] == pools;
    DedupProperties(Sources(pools));
  }

  /** The loop over the start tokens a, collecting every rotation found. */
  method EmitAll(pools: seq<ActivePool>, adj: map<string, set<string>>, tokens: seq<string>)
    returns (rotations: seq<Triple>)
    requires forall x, y :: x in adj && y in adj[x] <==> HasEdge(pools, x, y)
    requires forall x :: x in adj <==> x in tokens
    ensures forall t :: t in rotations <==> IsTriangle(pools, t)
    ensures Grouped(rotations)
  {
    rotations := [];
    for k := 0 to |tokens|
      invariant AllTriangles(pools, rotations)
      invariant Grouped(rotations)
      invariant forall a, b, c :: a in tokens[..k] && IsTriangle(pools, (a, b, c)) ==> (a, b, c) in rotations
    {
      rotations := EmitFrom(pools, adj, tokens[k], rotations);
      assert tokens[..k + 1] == tokens[..k] + [tokens[k]];
    }
    forall t | IsTriangle(pools, t) ensures t in rotations {
      assert t.0 in adj;
      assert tokens[..|tokens|] == tokens;
    }
  }

  /** The loops over the successors b of a and the successors c of b. */
  method EmitFrom(pools: seq<ActivePool>, adj: map<string, set<string>>, a: string, rotations0: seq<Triple>)
    returns (rotations: seq<Triple>)
    requires forall x, y :: x in adj && y in adj[x] <==> HasEdge(pools, x, y)
    requires AllTriangles(pools, rotations0) && Grouped(rotations0)
    ensures AllTriangles(pools, rotations) && Grouped(rotations)
    ensures rotations0 <= rotations
    ensures forall t :: t in rotations0 ==> t in rotations
    ensures forall b, c :: IsTriangle(pools, (a, b, c)) ==> (a, b, c) in rotations
  {
    rotations := rotations0;
    var successors := if a in adj then adj[a] else {};
    ghost var doneB: set<string> := {};
    while successors != {}
      invariant AllTriangles(pools, rotations) && Grouped(rotations)
      invariant rotations0 <= rotations
      invariant forall t :: t in rotations0 ==> t in rotations
      invariant forall b :: HasEdge(pools, a, b) ==> b in doneB || b in successors
      invariant forall b, c :: b in doneB && IsTriangle(pools, (a, b, c)) ==> (a, b, c) in rotations
      invariant forall b :: b in successors ==> HasEdge(pools, a, b)
      decreases successors
    {
      var b :| b in successors;
      successors := successors - {b};
      if b != a {
        rotations := EmitThrough(pools, adj, a, b, rotations);
      }
      doneB := doneB + {b};
    }
  }

  /** The loop over the successors c of b, closing with c -> a. */
  method EmitThrough(pools: seq<ActivePool>, adj: map<string, set<string>>, a: string, b: string, rotations0: seq<Triple>)
    returns (rotations: seq<Triple>)
    requires forall x, y :: x in adj && y in adj[x] <==> HasEdge(pools, x, y)
    requires HasEdge(pools, a, b) && a != b
    requires AllTriangles(pools, rotations0) && Grouped(rotations0)
    ensures AllTriangles(pools, rotations) && Grouped(rotations)
    ensures rotations0 <= rotations
    ensures forall t :: t in rotations0 ==> t in rotations
    ensures forall c :: IsTriangle(pools, (a, b, c)) ==> (a, b, c) in rotations
  {
    rotations := rotations0;
    var successors := if b in adj then adj[b] else {};
    ghost var doneC: set<string> := {};
    while successors != {}
      invariant AllTriangles(pools, rotations) && Grouped(rotations)
      invariant rotations0 <= rotations
      invariant forall t :: t in rotations0 ==> t in rotations
      invariant forall c :: HasEdge(pools, b, c) ==> c in doneC || c in successors
      invariant forall c :: c in doneC && IsTriangle(pools, (a, b, c)) ==> (a, b, c) in rotations
      invariant forall c :: c in successors ==> HasEdge(pools, b, c)
      decreases successors
    {
      var c :| c in successors;
      successors := successors - {c};
      if c != a && c != b {
        if c in adj && a in adj[c] {
          assert IsTriangle(pools, (a, b, c)) && IsTriangle(pools, (b, c, a)) && IsTriangle(pools, (c, a, b));
          GroupOfThree(a, b, c);
          GroupedAppend(rotations, [(a, b, c), (b, c, a), (c, a, b)]);
          rotations := rotations + [(a, b, c), (b, c, a), (c, a, b)];
        }
      }
      doneC := doneC + {c};
    }
  }
}
