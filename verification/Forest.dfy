/** Parent links between images: walking up, cycles, descendants. */
module Forest {

  /** `y` is reached from `x` by following exactly `n` parent links. */
  ghost predicate Up<T(!new)>(parents: map<T, T>, x: T, n: nat, y: T) {
    if n == 0 then x == y else x in parents && Up(parents, parents[x], n - 1, y)
  }

  /** `y` is `x` itself or one of its ancestors. */
  ghost predicate Above<T(!new)>(parents: map<T, T>, x: T, y: T) {
    exists n: nat :: Up(parents, x, n, y)
  }

  /** No image is its own proper ancestor. */
  ghost predicate Acyclic<T(!new)>(parents: map<T, T>) {
    forall x, n: nat :: n > 0 ==> !Up(parents, x, n, x)
  }

  /** `id` and everything below it. */
  ghost function Descendants<T(!new)>(parents: map<T, T>, id: T): set<T> {
    set x | x in parents.Keys + {id} && Above(parents, x, id)
  }

  function Children<T>(parents: map<T, T>, id: T): set<T> {
    set x | x in parents && parents[x] == id
  }

  lemma {:induction false} UpTransitive<T(!new)>(parents: map<T, T>, x: T, m: nat, y: T, n: nat, z: T)
    requires Up(parents, x, m, y) && Up(parents, y, n, z)
    ensures Up(parents, x, m + n, z)
  {
    if m > 0 {
      UpTransitive(parents, parents[x], m - 1, y, n, z);
    }
  }

  lemma {:induction false} UpMonotone<T(!new)>(small: map<T, T>, big: map<T, T>, x: T, n: nat, y: T)
    requires forall c :: c in small ==> c in big && small[c] == big[c]
    requires Up(small, x, n, y)
    ensures Up(big, x, n, y)
  {
    if n > 0 {
      UpMonotone(small, big, small[x], n - 1, y);
    }
  }

  /** Dropping links never makes a cycle. */
  lemma AcyclicSubset<T(!new)>(small: map<T, T>, big: map<T, T>)
    requires forall c :: c in small ==> c in big && small[c] == big[c]
    requires Acyclic(big)
    ensures Acyclic(small)
  {
    forall x, n: nat | n > 0 && Up(small, x, n, x)
      ensures false
    {
      UpMonotone(small, big, x, n, x);
    }
  }

  /** The walk from `x` to `y` reaches `id` over `k` old links and then takes the new link to `p`. */
  ghost predicate Detour<T(!new)>(parents: map<T, T>, id: T, p: T, x: T, n: nat, y: T, k: nat) {
    k < n && Up(parents, x, k, id) && Up(parents[id := p], p, n - k - 1, y)
  }

  /** A walk over the re-linked forest either avoids the new link or reaches `id` over old links first. */
  lemma {:induction false} WalkAfterRelink<T(!new)>(parents: map<T, T>, id: T, p: T, x: T, n: nat, y: T)
    requires Up(parents[id := p], x, n, y)
    ensures || Up(parents, x, n, y)
            || exists k: nat :: Detour(parents, id, p, x, n, y, k)
  {
    if n == 0 {
    } else if x == id {
      assert Detour(parents, id, p, x, n, y, 0);
    } else {
      WalkAfterRelink(parents, id, p, parents[x], n - 1, y);
      if !Up(parents, x, n, y) {
        var k: nat :| Detour(parents, id, p, parents[x], n - 1, y, k);
        assert Detour(parents, id, p, x, n, y, k + 1);
      }
    }
  }

  /** A walk up to `id` survives giving `id` another parent. */
  lemma {:induction false} WalkToRelinked<T(!new)>(parents: map<T, T>, id: T, p: T, x: T, n: nat) returns (m: nat)
    requires Up(parents, x, n, id)
    ensures Up(parents[id := p], x, m, id)
  {
    if x == id {
      m := 0;
    } else {
      m := WalkToRelinked(parents, id, p, parents[x], n - 1);
      m := m + 1;
    }
  }

  /** Giving `id` the parent `p` keeps the forest free of cycles exactly when `id` is not `p` or an ancestor of `p`. */
  lemma RelinkAcyclicIff<T(!new)>(parents: map<T, T>, id: T, p: T)
    requires Acyclic(parents)
    ensures Acyclic(parents[id := p]) <==> !Above(parents, p, id)
  {
    var relinked := parents[id := p];
    if Above(parents, p, id) {
      var n: nat :| Up(parents, p, n, id);
      var m := WalkToRelinked(parents, id, p, p, n);
      assert Up(relinked, id, m + 1, id);
    } else {
      forall x, n: nat | n > 0 && Up(relinked, x, n, x)
        ensures false
      {
        WalkAfterRelink(parents, id, p, x, n, x);
        var k: nat :| Detour(parents, id, p, x, n, x, k);
        WalkAfterRelink(parents, id, p, p, n - k - 1, x);
        UpTransitive(parents, p, n - k - 1, x, k, id);
      }
    }
  }

  /** An image without children can be given any parent but itself. */
  lemma RelinkLeaf<T(!new)>(parents: map<T, T>, id: T, p: T)
    requires Acyclic(parents) && Children(parents, id) == {} && p != id
    ensures Acyclic(parents[id := p])
  {
    forall c | c in parents
      ensures parents[c] != id
    {
      assert c !in Children(parents, id);
    }
    forall n: nat | Up(parents, p, n, id)
      ensures false
    {
      NothingBelowLeaf(parents, p, n, id);
    }
    RelinkAcyclicIff(parents, id, p);
  }

  lemma {:induction false} NothingBelowLeaf<T(!new)>(parents: map<T, T>, x: T, n: nat, leaf: T)
    requires Up(parents, x, n, leaf) && forall c :: c in parents ==> parents[c] != leaf
    ensures x == leaf
  {
    if n > 0 {
      NothingBelowLeaf(parents, parents[x], n - 1, leaf);
    }
  }

  /** Everything below `id` is `id` itself or below one of its children. */
  lemma DescendantsUnfold<T(!new)>(parents: map<T, T>, id: T, x: T)
    ensures x in Descendants(parents, id) <==>
            x == id || exists c :: c in Children(parents, id) && x in Descendants(parents, c)
  {
    assert Up(parents, id, 0, id);
    if x in Descendants(parents, id) && x != id {
      var n: nat :| Up(parents, x, n, id);
      var c := LastStep(parents, x, n, id);
      assert c in Children(parents, id) && x in Descendants(parents, c);
    }
    forall c | c in Children(parents, id) && x in Descendants(parents, c)
      ensures x in Descendants(parents, id)
    {
      var n: nat :| Up(parents, x, n, c);
      assert Up(parents, c, 1, id) by { assert Up(parents, id, 0, id); }
      UpTransitive(parents, x, n, c, 1, id);
    }
  }

  lemma {:induction false} LastStep<T(!new)>(parents: map<T, T>, x: T, n: nat, id: T) returns (c: T)
    requires n > 0 && Up(parents, x, n, id)
    ensures c in Children(parents, id) && Up(parents, x, n - 1, c)
  {
    if n == 1 {
      assert Up(parents, parents[x], 0, id);
      c := x;
    } else {
      c := LastStep(parents, parents[x], n - 1, id);
    }
  }

  /** Without cycles the subtree of a child is strictly smaller. */
  lemma DescendantsShrink<T(!new)>(parents: map<T, T>, id: T, c: T)
    requires Acyclic(parents) && c in Children(parents, id)
    ensures Descendants(parents, c) < Descendants(parents, id)
    ensures |Descendants(parents, c)| < |Descendants(parents, id)|
  {
    forall x | x in Descendants(parents, c)
      ensures x in Descendants(parents, id)
    {
      DescendantsUnfold(parents, id, x);
    }
    assert Up(parents, id, 0, id);
    if n: nat :| Up(parents, id, n, c) {
      assert Up(parents, c, 1, id);
      UpTransitive(parents, id, n, c, 1, id);
    }
    assert id !in Descendants(parents, c);
    ProperSubsetSmaller(Descendants(parents, c), Descendants(parents, id));
  }

  lemma ProperSubsetSmaller<T>(a: set<T>, b: set<T>)
    requires a < b
    ensures |a| < |b|
  {
    var rest := b - a;
    assert b == a + rest && rest != {};
  }
}
