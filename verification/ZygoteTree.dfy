/** The static tree of Zygotes: how it is set up and how a lambda's Zygote is found in it
    (go/worker/lambda/zygote/importCache.go). */
module ZygoteTree {
  import opened Common

  /** The configured tree, node 0 being the root: each node's own packages, its children in
      order, and the node it is a child of. */
  datatype Tree = Tree(packages: seq<seq<string>>, children: seq<seq<nat>>, up: seq<nat>)

  /** Nodes are numbered so that parents come before their children. */
  ghost predicate Shaped(t: Tree) {
    && |t.packages| == |t.children| == |t.up| > 0
    && t.up[0] == 0
    && (forall n: nat, i: nat :: n < |t.children| && i < |t.children[n]| ==> Below(t, n, t.children[n][i]))
    && (forall n: nat :: n < |t.children| ==> NoDup(t.children[n]))
    && (forall c: nat :: 0 < c < |t.up| ==> t.up[c] < c && c in t.children[t.up[c]])
  }

  ghost predicate Below(t: Tree, n: nat, c: nat) {
    n < c < |t.up| && t.up[c] == n
  }

  /** `m` is `n` or one of its descendants. */
  ghost predicate Under(t: Tree, m: nat, n: nat)
    requires Shaped(t) && m < |t.up|
  {
    m == n || (m > 0 && Under(t, t.up[m], n))
  }

  lemma {:induction false} UnderLater(t: Tree, m: nat, n: nat)
    requires Shaped(t) && m < |t.up| && Under(t, m, n)
    ensures n <= m
    decreases m
  {
    if m != n {
      UnderLater(t, t.up[m], n);
    }
  }

  lemma {:induction false} UnderTransitive(t: Tree, m: nat, n: nat, k: nat)
    requires Shaped(t) && m < |t.up| && n < |t.up| && Under(t, m, n) && Under(t, n, k)
    ensures Under(t, m, k)
    decreases m
  {
    if m != n {
      UnderTransitive(t, t.up[m], n, k);
    }
  }

  /** The descendants of different children of one node are different. */
  lemma {:induction false} SiblingsApart(t: Tree, m: nat, n: nat, c: nat, d: nat)
    requires Shaped(t) && m < |t.up| && n < |t.children| && c in t.children[n] && d in t.children[n] && c != d
    ensures !(Under(t, m, c) && Under(t, m, d))
    decreases m
  {
    if m > 0 && m != c && m != d {
      SiblingsApart(t, t.up[m], n, c, d);
    } else if Under(t, m, c) && Under(t, m, d) {
      var i :| 0 <= i < |t.children[n]| && t.children[n][i] == c;
      var j :| 0 <= j < |t.children[n]| && t.children[n][j] == d;
      assert Below(t, n, t.children[n][i]) && Below(t, n, t.children[n][j]);
      UnderLater(t, n, if m == c then d else c);
      assert false;
    }
  }

  /** The packages on the way from the root to `m`, in that order. */
  function PathPackages(t: Tree, m: nat): seq<string>
    requires Shaped(t) && m < |t.up|
  {
    (if m == 0 then [] else PathPackages(t, t.up[m])) + t.packages[m]
  }

  /** The packages from `n` down to just above `m`. */
  function Between(t: Tree, n: nat, m: nat): seq<string>
    requires Shaped(t) && m < |t.up|
  {
    if m <= n then [] else Between(t, n, t.up[m]) + t.packages[t.up[m]]
  }

  lemma {:induction false} BetweenChild(t: Tree, n: nat, c: nat, m: nat)
    requires Shaped(t) && m < |t.up| && 0 < c < |t.up| && n == t.up[c] && Under(t, m, c)
    ensures Between(t, n, m) == t.packages[n] + Between(t, c, m)
    decreases m
  {
    UnderLater(t, m, c);
    if m > c {
      BetweenChild(t, n, c, t.up[m]);
      UnderLater(t, t.up[m], c);
    }
  }

  lemma {:induction false} BetweenRoot(t: Tree, m: nat)
    requires Shaped(t) && m < |t.up|
    ensures Between(t, 0, m) + t.packages[m] == PathPackages(t, m) && Under(t, m, 0)
    decreases m
  {
    if m > 0 {
      BetweenRoot(t, t.up[m]);
    }
  }

  lemma {:induction false} UnderChild(t: Tree, m: nat, n: nat) returns (i: nat)
    requires Shaped(t) && m < |t.up| && n < |t.up| && Under(t, m, n) && m != n
    ensures i < |t.children[n]| && Under(t, m, t.children[n][i])
    decreases m
  {
    if t.up[m] == n {
      i :| 0 <= i < |t.children[n]| && t.children[n][i] == m;
    } else {
      i := UnderChild(t, t.up[m], n);
    }
  }

  /** Node `m` below `node` has its parent, and what its ancestors from `node` on add to `ind`. */
  ghost predicate Placed(t: Tree, parent: seq<Option<nat>>, indirect: seq<seq<string>>, node: nat, ind: seq<string>, m: nat)
    requires Shaped(t) && |parent| == |indirect| == |t.up| && m < |t.up|
  {
    indirect[m] == ind + Between(t, node, m) && (m != node ==> parent[m] == Some(t.up[m]))
  }

  /** So have all nodes below its first `i` children. */
  ghost predicate PlacedBelow(t: Tree, parent: seq<Option<nat>>, indirect: seq<seq<string>>, node: nat, ind: seq<string>, i: nat)
    requires Shaped(t) && |parent| == |indirect| == |t.up| && node < |t.up| && i <= |t.children[node]|
  {
    forall k: nat, m: nat :: k < i && m < |t.up| && Under(t, m, t.children[node][k])
                             ==> Placed(t, parent, indirect, node, ind, m)
  }

  /** Nothing but the descendants of `node` differs. */
  ghost predicate SameElsewhere(t: Tree, p: seq<Option<nat>>, d: seq<seq<string>>, p': seq<Option<nat>>, d': seq<seq<string>>, node: nat)
    requires Shaped(t) && |p| == |d| == |p'| == |d'| == |t.up|
  {
    forall m: nat :: m < |t.up| && !Under(t, m, node) ==> p'[m] == p[m] && d'[m] == d[m]
  }

  lemma ChildPlaced(t: Tree, p: seq<Option<nat>>, d: seq<seq<string>>, p': seq<Option<nat>>, d': seq<seq<string>>,
                    node: nat, ind: seq<string>, i: nat)
    requires Shaped(t) && |p| == |d| == |p'| == |d'| == |t.up| && node < |t.up| && i < |t.children[node]|
    requires t.children[node][i] < |t.up| && p'[t.children[node][i]] == Some(node)
    requires PlacedBelow(t, p, d, node, ind, i)
    requires SameElsewhere(t, p, d, p', d', t.children[node][i])
    requires forall m: nat :: m < |t.up| && Under(t, m, t.children[node][i])
                              ==> Placed(t, p', d', t.children[node][i], ind + t.packages[node], m)
    ensures PlacedBelow(t, p', d', node, ind, i + 1)
  {
    var child := t.children[node][i];
    assert Below(t, node, child);
    forall m: nat | m < |t.up| && Under(t, m, child) ensures Placed(t, p', d', node, ind, m) {
      BetweenChild(t, node, child, m);
    }
    forall k: nat, m: nat | k < i && m < |t.up| && Under(t, m, t.children[node][k]) ensures Placed(t, p', d', node, ind, m) {
      assert NoDup(t.children[node]) && t.children[node][k] != child;
      SiblingsApart(t, m, node, t.children[node][k], child);
      assert Placed(t, p, d, node, ind, m);
    }
  }

  /** What lies below a child lies below its parent, and the parent does not. */
  lemma ElsewhereChild(t: Tree, p: seq<Option<nat>>, d: seq<seq<string>>, p': seq<Option<nat>>, d': seq<seq<string>>, node: nat, child: nat)
    requires Shaped(t) && |p| == |d| == |p'| == |d'| == |t.up| && node < |t.up| && Below(t, node, child)
    requires SameElsewhere(t, p, d, p', d', child)
    ensures SameElsewhere(t, p, d, p', d', node) && p'[node] == p[node] && d'[node] == d[node]
  {
    forall m: nat | m < |t.up| && Under(t, m, child) ensures Under(t, m, node) {
      UnderTransitive(t, m, child, node);
    }
    UnderLaterNot(t, node, child);
  }

  lemma AllPlaced(t: Tree, p: seq<Option<nat>>, d: seq<seq<string>>, node: nat, ind: seq<string>, m: nat)
    requires Shaped(t) && |p| == |d| == |t.up| && node < |t.up| && d[node] == ind
    requires PlacedBelow(t, p, d, node, ind, |t.children[node]|) && m < |t.up| && Under(t, m, node)
    ensures Placed(t, p, d, node, ind, m)
  {
    if m != node {
      var i := UnderChild(t, m, node);
    }
  }

  class ImportCache {
    const t: Tree
    var parent: seq<Option<nat>>
    var indirect: seq<seq<string>>

    ghost predicate Valid()
      reads this
    {
      Shaped(t) && |parent| == |indirect| == |t.up|
    }

    constructor (t: Tree)
      requires Shaped(t)
      ensures this.t == t && Valid()
      ensures forall m: nat :: m < |t.up| ==> parent[m] == None && indirect[m] == []
    {
      this.t := t;
      parent := seq(|t.up|, _ => None);
      indirect := seq(|t.up|, _ => []);
    }

    /** AllPackages: indirect packages, then direct ones. */
    function AllPackages(m: nat): seq<string>
      requires Valid() && m < |t.up|
      reads this
    {
      indirect[m] + t.packages[m]
    }

    /** recursiveInit. */
    method RecursiveInit(node: nat, ind: seq<string>)
      requires Valid() && node < |t.up|
      modifies this
      ensures Valid()
      ensures forall m: nat :: m < |t.up| && Under(t, m, node) ==> Placed(t, parent, indirect, node, ind, m)
      ensures SameElsewhere(t, old(parent), old(indirect), parent, indirect, node)
      ensures parent[node] == old(parent[node])
      decreases |t.up| - node
    {
      indirect := indirect[node := ind];
      for i := 0 to |t.children[node]|
        invariant Valid() && indirect[node] == ind && parent[node] == old(parent[node])
        invariant PlacedBelow(t, parent, indirect, node, ind, i)
        invariant SameElsewhere(t, old(parent), old(indirect), parent, indirect, node)
      {
        var child := t.children[node][i];
        assert Below(t, node, child);
        ghost var p, d := parent, indirect;
        parent := parent[child := Some(node)];
        RecursiveInit(child, AllPackages(node));
        assert SameElsewhere(t, p, d, parent, indirect, child);
        ChildPlaced(t, p, d, parent, indirect, node, ind, i);
        ElsewhereChild(t, p, d, parent, indirect, node, child);
      }
      forall m: nat | m < |t.up| && Under(t, m, node) ensures Placed(t, parent, indirect, node, ind, m) {
        AllPlaced(t, parent, indirect, node, ind, m);
      }
    }
  }

  lemma UnderLaterNot(t: Tree, n: nat, c: nat)
    requires Shaped(t) && n < c < |t.up|
    ensures !Under(t, n, c)
  {
    if Under(t, n, c) {
      UnderLater(t, n, c);
      assert false;
    }
  }

  /** NewImportCache, as far as the tree goes: a root with packages of its own is refused. */
  method NewImportCache(t: Tree) returns (r: Option<ImportCache>)
    requires Shaped(t)
    ensures r.None? <==> t.packages[0] != []
    ensures r.Some? ==> fresh(r.value) && r.value.Valid() && r.value.t == t
    ensures r.Some? ==> forall m: nat :: m < |t.up| ==> r.value.AllPackages(m) == PathPackages(t, m)
    ensures r.Some? ==> forall m: nat :: 0 < m < |t.up| ==> r.value.parent[m] == Some(t.up[m])
    ensures r.Some? ==> r.value.parent[0] == None
  {
    if t.packages[0] != [] {
      return None;
    }
    var cache := new ImportCache(t);
    cache.RecursiveInit(0, []);
    forall m: nat | m < |t.up| 
      ensures cache.AllPackages(m) == PathPackages(t, m) && (m > 0 ==> cache.parent[m] == Some(t.up[m]))
    {
      BetweenRoot(t, m);
      assert Placed(t, cache.parent, cache.indirect, 0, [], m);
    }
    return Some(cache);
  }

  // ------------------------------------------------------------------ lookup

  /** The lambda wants every package of node `n` itself. */
  predicate Wants(t: Tree, n: nat, wanted: seq<string>)
    requires n < |t.packages|
  {
    forall k :: 0 <= k < |t.packages[n]| ==> t.packages[n][k] in wanted
  }

  ghost predicate Nodes(t: Tree, cs: seq<nat>) {
    forall i :: 0 <= i < |cs| ==> cs[i] < |t.packages|
  }

  /** The first of `cs` whose own packages are wanted. */
  function FirstWanted(t: Tree, cs: seq<nat>, wanted: seq<string>): (r: Option<nat>)
    requires Nodes(t, cs)
    ensures r.Some? ==> r.value in cs && r.value < |t.packages| && Wants(t, r.value, wanted)
    ensures r.None? ==> forall i :: 0 <= i < |cs| ==> !Wants(t, cs[i], wanted)
  {
    if cs == [] then None
    else if Wants(t, cs[0], wanted) then Some(cs[0])
    else FirstWanted(t, cs[1..], wanted)
  }

  /** It is the first: none before it is wanted. */
  lemma {:induction false} FirstIsFirst(t: Tree, cs: seq<nat>, wanted: seq<string>) returns (i: nat)
    requires Nodes(t, cs) && FirstWanted(t, cs, wanted).Some?
    ensures i < |cs| && cs[i] == FirstWanted(t, cs, wanted).value
    ensures forall j :: 0 <= j < i ==> !Wants(t, cs[j], wanted)
  {
    i := 0;
    if !Wants(t, cs[0], wanted) {
      var k := FirstIsFirst(t, cs[1..], wanted);
      i := k + 1;
    }
  }

  lemma ChildNodes(t: Tree, n: nat)
    requires Shaped(t) && n < |t.up|
    ensures Nodes(t, t.children[n])
    ensures forall c :: c in t.children[n] ==> Below(t, n, c)
  {
    forall i: nat | i < |t.children[n]| ensures Below(t, n, t.children[n][i]) {
    }
  }

  /** The way down that never turns back: always the first child whose own packages are wanted. */
  function Descend(t: Tree, n: nat, wanted: seq<string>): (d: nat)
    requires Shaped(t) && n < |t.up|
    ensures d < |t.up|
    decreases |t.up| - n
  {
    ChildNodes(t, n);
    match FirstWanted(t, t.children[n], wanted)
    case None => n
    case Some(c) => Descend(t, c, wanted)
  }

  method HasAll(packages: seq<string>, wanted: seq<string>) returns (ok: bool)
    ensures ok <==> forall k :: 0 <= k < |packages| ==> packages[k] in wanted
  {
    for i := 0 to |packages|
      invariant forall k :: 0 <= k < i ==> packages[k] in wanted
    {
      var found := false;
      for j := 0 to |wanted|
        invariant !found && packages[i] !in wanted[..j]
      {
        if wanted[j] == packages[i] {
          found := true;
          break;
        }
      }
      if !found {
        assert wanted[..|wanted|] == wanted;
        return false;
      }
    }
    return true;
  }

  /** Lookup searches with backtracking and still finds what the descent finds. */
  method Lookup(t: Tree, n: nat, wanted: seq<string>) returns (r: Option<nat>)
    requires Shaped(t) && n < |t.up|
    ensures r == if Wants(t, n, wanted) then Some(Descend(t, n, wanted)) else None
    decreases |t.up| - n
  {
    var ok := HasAll(t.packages[n], wanted);
    if !ok {
      return None;
    }
    ChildNodes(t, n);
    for i := 0 to |t.children[n]|
      invariant FirstWanted(t, t.children[n], wanted) == FirstWanted(t, t.children[n][i..], wanted)
    {
      var result := Lookup(t, t.children[n][i], wanted);
      if result.Some? {
        return result;
      }
    }
    return Some(n);
  }

  /** All nodes from `n` down to `d` are wanted, and no child of `d` is. */
  ghost predicate Deepest(t: Tree, n: nat, d: nat, wanted: seq<string>)
    requires Shaped(t) && d < |t.up|
  {
    && Under(t, d, n)
    && (forall m: nat :: m < |t.up| && Under(t, d, m) && Under(t, m, n) ==> Wants(t, m, wanted))
    && (forall i :: 0 <= i < |t.children[d]| ==> t.children[d][i] < |t.up| && !Wants(t, t.children[d][i], wanted))
  }

  /** Between a child of `n` and `n` itself there is nothing. */
  lemma {:induction false} UnderParent(t: Tree, m: nat, n: nat, c: nat, d: nat)
    requires Shaped(t) && d < |t.up| && m < |t.up| && c < |t.up| && n < |t.up| && Below(t, n, c)
    requires Under(t, d, c) && Under(t, d, m) && Under(t, m, n)
    ensures m == n || Under(t, m, c)
    decreases d
  {
    if d == c {
      if m != c {
        UnderLater(t, m, n);
        UnderLater(t, t.up[c], m);
      }
    } else if d != m {
      UnderParent(t, m, n, c, t.up[d]);
    }
  }

  lemma {:induction false} DescendDeepest(t: Tree, n: nat, wanted: seq<string>)
    requires Shaped(t) && n < |t.up| && Wants(t, n, wanted)
    ensures Deepest(t, n, Descend(t, n, wanted), wanted)
    decreases |t.up| - n
  {
    ChildNodes(t, n);
    var d := Descend(t, n, wanted);
    match FirstWanted(t, t.children[n], wanted)
    case None =>
      forall m: nat | m < |t.up| && Under(t, n, m) && Under(t, m, n) ensures m == n {
        UnderLater(t, n, m);
        UnderLater(t, m, n);
      }
    case Some(c) =>
      DescendDeepest(t, c, wanted);
      UnderTransitive(t, d, c, n);
      forall m: nat | m < |t.up| && Under(t, d, m) && Under(t, m, n) ensures Wants(t, m, wanted) {
        UnderParent(t, m, n, c, d);
      }
  }

  /** Node `m` has no wanted sibling before it. */
  ghost predicate FirstChild(t: Tree, m: nat, wanted: seq<string>)
    requires Shaped(t) && 0 < m < |t.up|
  {
    exists i :: 0 <= i < |t.children[t.up[m]]| && t.children[t.up[m]][i] == m && Unwanted(t, t.children[t.up[m]][..i], wanted)
  }

  ghost predicate Unwanted(t: Tree, cs: seq<nat>, wanted: seq<string>) {
    forall j :: 0 <= j < |cs| ==> cs[j] < |t.packages| && !Wants(t, cs[j], wanted)
  }

  /** The way down is the leftmost one: each node on it is its parent's first wanted child. */
  lemma {:induction false} DescendLeftmost(t: Tree, n: nat, wanted: seq<string>, m: nat)
    requires Shaped(t) && n < |t.up| && m < |t.up| && m != n
    requires Under(t, Descend(t, n, wanted), m) && Under(t, m, n)
    ensures 0 < m && FirstChild(t, m, wanted)
    decreases |t.up| - n
  {
    ChildNodes(t, n);
    UnderLater(t, m, n);
    match FirstWanted(t, t.children[n], wanted)
    case None =>
      UnderLater(t, n, m);
      assert false;
    case Some(c) =>
      DescendUnder(t, c, wanted);
      UnderParent(t, m, n, c, Descend(t, c, wanted));
      if m != c {
        DescendLeftmost(t, c, wanted, m);
      } else {
        var i := FirstIsFirst(t, t.children[n], wanted);
        assert Unwanted(t, t.children[n][..i], wanted);
      }
  }

  lemma {:induction false} DescendUnder(t: Tree, n: nat, wanted: seq<string>)
    requires Shaped(t) && n < |t.up|
    ensures Under(t, Descend(t, n, wanted), n)
    decreases |t.up| - n
  {
    ChildNodes(t, n);
    match FirstWanted(t, t.children[n], wanted)
    case None =>
    case Some(c) =>
      DescendUnder(t, c, wanted);
      UnderTransitive(t, Descend(t, c, wanted), c, n);
  }

  lemma {:induction false} PathWanted(t: Tree, d: nat, wanted: seq<string>)
    requires Shaped(t) && d < |t.up|
    requires forall m: nat :: m < |t.up| && Under(t, d, m) ==> Wants(t, m, wanted)
    ensures forall p :: p in PathPackages(t, d) ==> p in wanted
    decreases d
  {
    assert Under(t, d, d);
    if d > 0 {
      PathWanted(t, t.up[d], wanted);
    }
  }

  /** With a root of no packages the lookup always finds a node; the lambda wants all it
      imports, directly and indirectly; and none of its children would do. */
  lemma LookupFits(t: Tree, wanted: seq<string>)
    requires Shaped(t) && t.packages[0] == []
    ensures Wants(t, 0, wanted)
    ensures forall p :: p in PathPackages(t, Descend(t, 0, wanted)) ==> p in wanted
    ensures Deepest(t, 0, Descend(t, 0, wanted), wanted)
  {
    DescendDeepest(t, 0, wanted);
    var d := Descend(t, 0, wanted);
    forall m: nat | m < |t.up| && Under(t, d, m) ensures Wants(t, m, wanted) {
      BetweenRoot(t, m);
    }
    PathWanted(t, d, wanted);
  }
}
