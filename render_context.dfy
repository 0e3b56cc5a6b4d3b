/**
 * engine/render_context.go: the current transform, the stack of saved
 * copies, the 100-entry scratch buffer DrawPolygon transforms vertices into,
 * and the drawing surface (a gg.Context), recorded here as the sequence of
 * state pushes, state pops and filled paths it receives.
 *
 * The copies pushed by Save come from the package-level AffinePool and go
 * back to it on Restore; the pool is the `pool` the context is built with.
 */
module RenderContexts {
  import opened Engine
  import opened AffineAlgebra
  import opened AffineTransforms
  import opened Pools

  /** MaxTranformedVertices: the size of the scratch buffer. */
  const MaxTransformedVertices: nat := 100

  /**
   * What the drawing surface receives: Push and Pop of its own state (from
   * Save and Restore) and one filled path per DrawPolygon, which starts with
   * MoveTo at the first point and continues with LineTo at the others.
   */
  datatype SurfaceOp = PushState | PopState | Fill(path: seq<Vector3>, color: RGBA)

  /**
   * The points ApplyTo writes for the given vertices: each vertex under m,
   * with the zero z every scratch point keeps.
   */
  function Path(m: Affine, vertices: seq<Vector3>): seq<Vector3> {
    seq(|vertices|, i requires 0 <= i < |vertices| => Apply(m, vertices[i]).(z := 0.0))
  }

  /** What a render context looks like from outside: see RenderContext.Abstract. */
  datatype Frame = Frame(current: Affine, saved: seq<Affine>, pooled: nat, surface: seq<SurfaceOp>)

  /** Save on the abstract state: push the current value, take one copy from the pool. */
  function Pushed(f: Frame): (r: Frame)
    requires f.pooled > 0
    ensures r.current == f.current && r.saved == f.saved + [f.current] && r.pooled + 1 == f.pooled
  {
    Frame(f.current, f.saved + [f.current], f.pooled - 1, f.surface + [PushState])
  }

  /** Restore on the abstract state: the top value becomes current, its copy returns to the pool. */
  function Popped(f: Frame): (r: Frame)
    requires |f.saved| > 0
    ensures r.current == f.saved[|f.saved| - 1] && r.saved + [r.current] == f.saved
  {
    Frame(f.saved[|f.saved| - 1], f.saved[..|f.saved| - 1], f.pooled + 1, f.surface + [PopState])
  }

  /** DrawPolygon on the abstract state: one filled path. */
  function Drawn(f: Frame, path: seq<Vector3>, color: RGBA): Frame {
    f.(surface := f.surface + [Fill(path, color)])
  }

  /**
   * A Restore undoes a Save, whatever the current value became in between:
   * the current value, the stack and the pool size are back, and the surface
   * has a balanced push and pop.
   */
  lemma PoppedUndoesPushed(f: Frame, current: Affine, between: seq<SurfaceOp>)
    requires f.pooled > 0
    ensures Popped(Pushed(f).(current := current, surface := Pushed(f).surface + between))
         == f.(surface := f.surface + ([PushState] + between + [PopState]))
  {
  }

  /** The values held by a sequence of transform objects, in order. */
  function Values(s: seq<AffineTransform>): (r: seq<Affine>)
    reads s
    ensures |r| == |s|
  {
    if s == [] then [] else Values(s[..|s| - 1]) + [s[|s| - 1].Value()]
  }

  /** Values of a sequence extended at the back. */
  lemma ValuesSnoc(s: seq<AffineTransform>, t: AffineTransform)
    ensures Values(s + [t]) == Values(s) + [t.Value()]
  {
    assert (s + [t])[..|s|] == s;
  }

  /**
   * The ownership discipline of the transform objects: the pooled and the
   * saved copies are distinct objects, all in `slots`, and the current
   * transform is none of them.
   */
  ghost predicate Owned(pool: seq<AffineTransform>, stack: seq<AffineTransform>,
                        slots: set<AffineTransform>, current: AffineTransform)
  {
    Distinct(pool + stack)
    && (forall t :: t in pool ==> t in slots)
    && (forall t :: t in stack ==> t in slots)
    && current !in slots
  }

  /** Save moves the front of the pool onto the stack. */
  lemma OwnedAfterSave(p: seq<AffineTransform>, c: seq<AffineTransform>,
                       slots: set<AffineTransform>, current: AffineTransform)
    requires |p| > 0 && Owned(p, c, slots, current)
    ensures Owned(p[1..], c + [p[0]], slots, current)
    ensures p[0] !in c && p[0] != current
  {
    var s, s' := p + c, p[1..] + (c + [p[0]]);
    forall j | 0 <= j < |c|
      ensures c[j] != p[0]
    {
      assert c[j] == s[|p| + j] && p[0] == s[0];
    }
    forall i, j | 0 <= i < j < |s'|
      ensures s'[i] != s'[j]
    {
      var i0 := if i < |p| - 1 then i + 1 else if i < |s'| - 1 then i + 1 else 0;
      var j0 := if j < |p| - 1 then j + 1 else if j < |s'| - 1 then j + 1 else 0;
      assert s'[i] == s[i0] && s'[j] == s[j0];
    }
    assert forall t :: t in p[1..] ==> t in p;
  }

  /** Restore moves the top of the stack to the back of the pool. */
  lemma OwnedAfterRestore(p: seq<AffineTransform>, c: seq<AffineTransform>,
                          slots: set<AffineTransform>, current: AffineTransform)
    requires |c| > 0 && Owned(p, c, slots, current)
    ensures Owned(p + [c[|c| - 1]], c[..|c| - 1], slots, current)
    ensures c[|c| - 1] != current
  {
    var s, s' := p + c, (p + [c[|c| - 1]]) + c[..|c| - 1];
    forall i, j | 0 <= i < j < |s'|
      ensures s'[i] != s'[j]
    {
      var i0 := if i < |p| then i else if i == |p| then |s| - 1 else i - 1;
      var j0 := if j < |p| then j else if j == |p| then |s| - 1 else j - 1;
      assert s'[i] == s[i0] && s'[j] == s[j0];
    }
    assert c[|c| - 1] in c;
    assert forall t :: t in c[..|c| - 1] ==> t in c;
  }

  class RenderContext {
    /** tPoints: the scratch buffer of transformed vertices. */
    const tPoints: array<Vector3>
    /** context: the current transform. */
    var context: AffineTransform
    /** contextState: the saved copies, top last. */
    var contextState: seq<AffineTransform>
    /** The package-level AffinePool. */
    const pool: Pool<AffineTransform>
    /** What the drawing surface has received so far. */
    var surface: seq<SurfaceOp>
    /** The transform objects held by the pool or the stack. */
    ghost var slots: set<AffineTransform>

    /**
     * The buffer has its fixed size and only points with z = 0 (NewVector3,
     * then ApplyTo, which keeps z), and the transform objects are Owned.
     */
    ghost predicate Valid()
      reads this, pool, tPoints
    {
      tPoints.Length == MaxTransformedVertices
      && (forall i :: 0 <= i < tPoints.Length ==> tPoints[i].z == 0.0)
      && Owned(pool.items, contextState, slots, context)
    }

    /** NewRenderContext: identity current transform, empty stack, 100 zero vectors. */
    constructor (pool: Pool<AffineTransform>)
      requires Distinct(pool.items)
      ensures Valid()
      ensures this.pool == pool && pool.items == old(pool.items)
      ensures fresh(context) && context.Value() == Identity
      ensures contextState == [] && surface == []
      ensures fresh(tPoints) && tPoints[..] == seq(MaxTransformedVertices, _ => Zero)
    {
      this.pool := pool;
      contextState := [];
      surface := [];
      context := new AffineTransform();
      tPoints := new Vector3[MaxTransformedVertices];
      slots := set t | t in pool.items;
      new;
      var i := 0;
      while i < tPoints.Length
        modifies tPoints
        invariant 0 <= i <= tPoints.Length
        invariant forall k :: 0 <= k < i ==> tPoints[k] == Zero
      {
        tPoints[i] := Zero;
        i := i + 1;
      }
    }

    /**
     * The state a caller can observe: the current value, the saved values
     * (top last), the size of the pool and the surface calls so far.
     */
    ghost function Abstract(): Frame
      reads this, context, pool, contextState
    {
      Frame(context.Value(), Values(contextState), |pool.items|, surface)
    }

    /**
     * Set: the current transform becomes `at` itself, so that later
     * Transform and Restore calls overwrite `at`.
     */
    method Set(at: AffineTransform)
      requires Valid() && at !in slots
      modifies this
      ensures Valid() && slots == old(slots)
      ensures context == at
      ensures contextState == old(contextState) && surface == old(surface)
    {
      context := at;
    }

    /** Save: push a pooled copy of the current transform. */
    method Save()
      requires Valid() && |pool.items| > 0
      modifies this, pool, pool.items[0]
      ensures Valid() && slots == old(slots) && context == old(context)
      ensures Abstract() == Pushed(old(Abstract()))
      ensures contextState == old(contextState) + [old(pool.items[0])]
      ensures pool.items == old(pool.items[1..])
    {
      OwnedAfterSave(pool.items, contextState, slots, context);
      surface := surface + [PushState];
      var t := pool.Pop();
      t.SetWithAT(context);
      ValuesSnoc(contextState, t);
      contextState := contextState + [t];
    }

    /** Transform: current := at . current. */
    method Transform(at: AffineTransform)
      requires Valid()
      modifies context
      ensures Valid()
      ensures Abstract() == old(Abstract()).(current := Mul(old(at.Value()), old(context.Value())))
      ensures at != context ==> at.Value() == old(at.Value())
    {
      AffineTransformMultiplyTo(at, context);
    }

    /** Restore: copy the top back into the current transform and return it to the pool. */
    method Restore()
      requires Valid() && |contextState| > 0
      modifies this, context, pool
      ensures Valid() && slots == old(slots) && context == old(context)
      ensures Abstract() == Popped(old(Abstract()))
      ensures contextState == old(contextState[..|contextState| - 1])
      ensures pool.items == old(pool.items) + [old(contextState[|contextState| - 1])]
    {
      OwnedAfterRestore(pool.items, contextState, slots, context);
      var t := contextState[|contextState| - 1];
      contextState := contextState[..|contextState| - 1];
      context.SetWithAT(t);
      pool.Push(t);
      surface := surface + [PopState];
    }

    /**
     * DrawPolygon: transform each vertex by the current transform into the
     * scratch buffer, then fill the outline through the first |vertices|
     * scratch points; with no vertices the outline is the point left in
     * tPoints[0] by an earlier call. More than 100 vertices make the Go
     * slice index panic.
     */
    method DrawPolygon(vertices: seq<Vector3>, color: RGBA)
      requires Valid() && |vertices| <= MaxTransformedVertices
      modifies this, tPoints
      ensures Valid() && slots == old(slots)
      ensures context == old(context) && contextState == old(contextState)
      ensures tPoints[..] == Path(context.Value(), vertices) + old(tPoints[|vertices|..])
      ensures Abstract() == Drawn(old(Abstract()), if |vertices| == 0 then [old(tPoints[0])]
                                                   else Path(context.Value(), vertices), color)
    {
      var i := 0;
      while i < |vertices|
        modifies tPoints
        invariant 0 <= i <= |vertices|
        invariant forall k :: 0 <= k < i ==> tPoints[k] == Path(context.Value(), vertices)[k]
        invariant forall k :: i <= k < tPoints.Length ==> tPoints[k] == old(tPoints[k])
      {
        tPoints[i] := context.ApplyTo(vertices[i], tPoints[i]);
        i := i + 1;
      }
      assert tPoints[..] == Path(context.Value(), vertices) + old(tPoints[|vertices|..]);
      var path := if |vertices| == 0 then [tPoints[0]] else tPoints[..|vertices|];
      surface := surface + [Fill(path, color)];
    }
  }
}
