/**
 * engine/pools.go: AffineTransformPool and VectorPool, two FIFO free lists
 * held in a slice. Push appends at the back, Pop takes the front. The two Go
 * types have the same Push, Pop and IsEmpty; here they are one generic class,
 * and the two Add loops that fill them are methods of their own.
 */
module Pools {
  import opened Engine
  import opened AffineAlgebra
  import opened AffineTransforms

  /** No element of s occurs twice. */
  predicate Distinct<T(==)>(s: seq<T>) {
    forall i, j :: 0 <= i < j < |s| ==> s[i] != s[j]
  }

  /** The number of elements an Add(count) loop pushes: none for a negative count. */
  function AddCount(count: int): nat {
    if count < 0 then 0 else count
  }

  class Pool<T> {
    var items: seq<T>

    /** AffineTransformPool{} / VectorPool{}: the empty slice. */
    constructor ()
      ensures items == []
    {
      items := [];
    }

    function Len(): (r: nat)
      reads this
      ensures r == |items|
    {
      |items|
    }

    /** Push: append at the back. */
    method Push(n: T)
      modifies this
      ensures items == old(items) + [n]
    {
      items := items + [n];
    }

    /** Pop: take the front element; the Go slice index panics on an empty pool. */
    method Pop() returns (n: T)
      requires |items| > 0
      modifies this
      ensures n == old(items)[0]
      ensures items == old(items)[1..]
    {
      n := items[0];
      items := items[1..];
    }

    /** IsEmpty: the length is zero. */
    function IsEmpty(): (r: bool)
      reads this
      ensures r <==> items == []
      ensures r <==> Len() == 0
    {
      Len() == 0
    }
  }

  /** Pop followed by Push of the same element moves the front element to the back. */
  method PopThenPush<T>(q: Pool<T>) returns (n: T)
    requires |q.items| > 0
    modifies q
    ensures n == old(q.items)[0]
    ensures q.items == old(q.items)[1..] + [old(q.items)[0]]
    ensures |q.items| == |old(q.items)|
  {
    n := q.Pop();
    q.Push(n);
  }

  /** AffineTransformPool.Add: push count fresh identity transforms. */
  method AddTransforms(q: Pool<AffineTransform>, count: int)
    modifies q
    ensures |q.items| == |old(q.items)| + AddCount(count)
    ensures q.items[..|old(q.items)|] == old(q.items)
    ensures forall i :: |old(q.items)| <= i < |q.items| ==> fresh(q.items[i])
    ensures forall i :: |old(q.items)| <= i < |q.items| ==> q.items[i].Value() == Identity
    ensures forall i, j :: |old(q.items)| <= i < j < |q.items| ==> q.items[i] != q.items[j]
  {
    var i := 0;
    while i < count
      invariant 0 <= i <= AddCount(count)
      invariant |q.items| == |old(q.items)| + i
      invariant q.items[..|old(q.items)|] == old(q.items)
      invariant forall k :: |old(q.items)| <= k < |q.items| ==> fresh(q.items[k])
      invariant forall k :: |old(q.items)| <= k < |q.items| ==> q.items[k].Value() == Identity
      invariant forall k, l :: |old(q.items)| <= k < l < |q.items| ==> q.items[k] != q.items[l]
    {
      var at := new AffineTransform();
      q.Push(at);
      i := i + 1;
    }
  }

  /** NewAffineTransformPool(count): a pool of count distinct fresh identity transforms. */
  method NewAffineTransformPool(count: int) returns (p: Pool<AffineTransform>)
    ensures fresh(p)
    ensures |p.items| == AddCount(count)
    ensures Distinct(p.items)
    ensures forall i :: 0 <= i < |p.items| ==> fresh(p.items[i]) && p.items[i].Value() == Identity
  {
    p := new Pool();
    AddTransforms(p, count);
  }

  /** VectorPool.Add: push count zero vectors. */
  method AddVectors(q: Pool<Vector3>, count: int)
    modifies q
    ensures q.items == old(q.items) + seq(AddCount(count), _ => Zero)
  {
    var i := 0;
    while i < count
      invariant 0 <= i <= AddCount(count)
      invariant q.items == old(q.items) + seq(i, _ => Zero)
    {
      q.Push(Zero);
      i := i + 1;
    }
  }

  /** NewVectorPool(count): a pool of count zero vectors. */
  method NewVectorPool(count: int) returns (p: Pool<Vector3>)
    ensures fresh(p)
    ensures p.items == seq(AddCount(count), _ => Zero)
  {
    p := new Pool();
    AddVectors(p, count);
  }
}
