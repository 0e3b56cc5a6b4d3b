/**
 * The render walk of engine/group_node.go and engine/node.go over a scene
 * tree. A Scene is a snapshot of a node tree: each node's local transform
 * (what calcTransform returns for it), its visibility, and for a rectangle
 * its centring and colour. Render gives the sequence of calls the drawing
 * surface receives; RenderScene performs the walk on a RenderContext and is
 * proved to produce exactly that sequence.
 */
module Scenes {
  import opened Engine
  import opened AffineAlgebra
  import opened AffineTransforms
  import opened RenderContexts
  import Nodes

  datatype Scene =
    | Group(local: Affine, visible: bool, children: seq<Scene>)
    | Rect(local: Affine, visible: bool, centered: bool, color: RGBA)

  /**
   * The surface calls of rendering s under the current value m: nothing when
   * invisible; otherwise a push, the node's drawing under local . m, a pop.
   * A group draws its children in insertion order and then its own (empty)
   * Draw.
   */
  function Trace(s: Scene, m: Affine): seq<SurfaceOp>
    decreases s
  {
    if !s.visible then []
    else match s
      case Rect(local, _, centered, color) =>
        [PushState] + [Fill(Path(Mul(local, m), Nodes.RectangleVertices(centered)), color)] + [PopState]
      case Group(local, _, children) =>
        [PushState] + ChildrenTrace(children, Mul(local, m)) + [PopState]
  }

  function ChildrenTrace(cs: seq<Scene>, m: Affine): seq<SurfaceOp>
    decreases cs
  {
    if cs == [] then [] else ChildrenTrace(cs[..|cs| - 1], m) + Trace(cs[|cs| - 1], m)
  }

  /** The deepest nesting of Saves rendering s makes: the pool copies it needs at once. */
  function Depth(s: Scene): nat
    decreases s
  {
    if !s.visible then 0
    else match s
      case Rect(_, _, _, _) => 1
      case Group(_, _, children) => 1 + ChildrenDepth(children)
  }

  function ChildrenDepth(cs: seq<Scene>): (r: nat)
    ensures forall i :: 0 <= i < |cs| ==> Depth(cs[i]) <= r
    decreases cs
  {
    if cs == [] then 0
    else
      var d, last := ChildrenDepth(cs[..|cs| - 1]), Depth(cs[|cs| - 1]);
      assert forall i :: 0 <= i < |cs| - 1 ==> cs[i] == cs[..|cs| - 1][i];
      if d < last then last else d
  }

  // ---------------------------------------------------------------------
  // The walk
  // ---------------------------------------------------------------------

  /**
   * The opening of every Render: Save, then Transform by a transform object
   * holding the node's local value. The current value becomes local . current.
   */
  method Enter(context: RenderContext, local: Affine)
    requires context.Valid() && |context.pool.items| > 0
    modifies context, context.context, context.pool, context.pool.items[0]
    ensures context.Valid() && context.slots == old(context.slots) && context.context == old(context.context)
    ensures context.Abstract() == Pushed(old(context.Abstract())).(current := Mul(local, old(context.context.Value())))
  {
    ghost var before := context.Abstract();
    var at := new AffineTransform();
    at.Set(local.a, local.b, local.c, local.d, local.tx, local.ty);
    context.Save();
    ghost var saved := context.Abstract();
    assert saved == Pushed(before) && at.Value() == local;
    context.Transform(at);
  }

  /**
   * Node.Render / GroupNode.Render on the snapshot s: Save, Transform by the
   * local transform, the rectangle's Draw or each child in order, Restore.
   * The context's current value, stack and pool size end as they started.
   */
  method RenderScene(context: RenderContext, s: Scene)
    requires context.Valid() && Depth(s) <= |context.pool.items|
    modifies context, context.context, context.tPoints, context.pool, context.slots
    ensures context.Valid() && context.slots == old(context.slots) && context.context == old(context.context)
    ensures context.Abstract()
         == old(context.Abstract()).(surface := old(context.surface) + Trace(s, old(context.context.Value())))
    decreases s, 3
  {
    if s.visible {
      match s {
        case Rect(local, _, centered, color) => RenderRect(context, local, centered, color);
        case Group(local, _, children) => RenderGroup(context, local, children);
      }
    }
  }

  /** RectangleNode.Render: Save, Transform, DrawPolygon of the four corners, Restore. */
  method RenderRect(context: RenderContext, local: Affine, centered: bool, color: RGBA)
    requires context.Valid() && |context.pool.items| > 0
    modifies context, context.context, context.tPoints, context.pool, context.slots
    ensures context.Valid() && context.slots == old(context.slots) && context.context == old(context.context)
    ensures context.Abstract() == old(context.Abstract()).(surface := old(context.surface)
                                    + Trace(Rect(local, true, centered, color), old(context.context.Value())))
  {
    ghost var before := context.Abstract();
    ghost var inner := Mul(local, before.current);
    ghost var vertices := Nodes.RectangleVertices(centered);
    Enter(context, local);
    ghost var entered := context.Abstract();
    assert entered == Pushed(before).(current := inner);
    context.DrawPolygon(Nodes.RectangleVertices(centered), color);
    ghost var drawn := context.Abstract();
    assert drawn == Drawn(entered, Path(inner, vertices), color);
    context.Restore();
    assert context.Abstract() == Popped(drawn);
    PoppedUndoesPushed(before, inner, [Fill(Path(inner, vertices), color)]);
  }

  /** GroupNode.Render: Save, Transform, every child in order, the group's own empty Draw, Restore. */
  method RenderGroup(context: RenderContext, local: Affine, children: seq<Scene>)
    requires context.Valid() && 1 + ChildrenDepth(children) <= |context.pool.items|
    modifies context, context.context, context.tPoints, context.pool, context.slots
    ensures context.Valid() && context.slots == old(context.slots) && context.context == old(context.context)
    ensures context.Abstract() == old(context.Abstract()).(surface := old(context.surface)
                                    + Trace(Group(local, true, children), old(context.context.Value())))
    decreases children, 2
  {
    ghost var before := context.Abstract();
    ghost var inner := Mul(local, before.current);
    Enter(context, local);
    ghost var entered := context.Abstract();
    assert entered == Pushed(before).(current := inner);
    RenderChildren(context, children);
    ghost var drawn := context.Abstract();
    assert drawn == entered.(surface := entered.surface + ChildrenTrace(children, inner));
    context.Restore();
    assert context.Abstract() == Popped(drawn);
    PoppedUndoesPushed(before, inner, ChildrenTrace(children, inner));
    assert Trace(Group(local, true, children), before.current)
        == [PushState] + ChildrenTrace(children, inner) + [PopState];
  }

  /** GroupNode.Render's loop: each child in insertion order, under the same current value. */
  method RenderChildren(context: RenderContext, cs: seq<Scene>)
    requires context.Valid() && ChildrenDepth(cs) <= |context.pool.items|
    modifies context, context.context, context.tPoints, context.pool, context.slots
    ensures context.Valid() && context.slots == old(context.slots) && context.context == old(context.context)
    ensures context.Abstract()
         == old(context.Abstract()).(surface := old(context.surface) + ChildrenTrace(cs, old(context.context.Value())))
    decreases cs, 1
  {
    ghost var start := context.Abstract();
    var i := 0;
    while i < |cs|
      invariant 0 <= i <= |cs|
      invariant context.Valid() && context.slots == old(context.slots) && context.context == old(context.context)
      invariant context.Abstract() == start.(surface := start.surface + ChildrenTrace(cs[..i], start.current))
    {
      RenderChild(context, cs, i, start);
      i := i + 1;
    }
    assert cs[..i] == cs;
  }

  /** One turn of GroupNode.Render's loop: child i is drawn after children 0 to i - 1. */
  method RenderChild(context: RenderContext, cs: seq<Scene>, i: nat, ghost start: Frame)
    requires i < |cs| && context.Valid() && ChildrenDepth(cs) <= start.pooled
    requires context.Abstract() == start.(surface := start.surface + ChildrenTrace(cs[..i], start.current))
    modifies context, context.context, context.tPoints, context.pool, context.slots
    ensures context.Valid() && context.slots == old(context.slots) && context.context == old(context.context)
    ensures context.Abstract() == start.(surface := start.surface + ChildrenTrace(cs[..i + 1], start.current))
    decreases cs, 0
  {
    ghost var before := context.Abstract();
    RenderScene(context, cs[i]);
    ChildrenTraceSnoc(cs, i, start.current);
    AppendAfter(before, start, ChildrenTrace(cs[..i], start.current), Trace(cs[i], start.current));
  }

  /** The trace of the first i + 1 children extends that of the first i by child i's. */
  lemma ChildrenTraceSnoc(cs: seq<Scene>, i: nat, m: Affine)
    requires i < |cs|
    ensures ChildrenTrace(cs[..i + 1], m) == ChildrenTrace(cs[..i], m) + Trace(cs[i], m)
  {
    assert cs[..i + 1][..i] == cs[..i];
  }

  /** Surface calls appended after earlier ones: the frame-level form of associativity. */
  lemma AppendAfter(f: Frame, start: Frame, done: seq<SurfaceOp>, next: seq<SurfaceOp>)
    requires f == start.(surface := start.surface + done)
    ensures f.(surface := f.surface + next) == start.(surface := start.surface + (done + next))
  {
  }

  // ---------------------------------------------------------------------
  // Properties of the walk
  // ---------------------------------------------------------------------

  /** An invisible node, group or rectangle, draws nothing and touches no state. */
  lemma InvisibleDrawsNothing(s: Scene, m: Affine)
    requires !s.visible
    ensures Trace(s, m) == []
  {
  }

  /**
   * The last child added is drawn last, on top of its siblings: the group's
   * calls end with the last child's calls and the group's pop.
   */
  lemma LastChildDrawnLast(local: Affine, children: seq<Scene>, m: Affine)
    requires |children| > 0
    ensures var t, last := Trace(Group(local, true, children), m), Trace(children[|children| - 1], Mul(local, m));
            |t| > |last| && t[|t| - |last| - 1..] == last + [PopState]
  {
    var last := Trace(children[|children| - 1], Mul(local, m));
    var front := [PushState] + ChildrenTrace(children[..|children| - 1], Mul(local, m));
    assert Trace(Group(local, true, children), m) == front + last + [PopState];
  }

  /** The number of Fill calls in ops. */
  function Fills(ops: seq<SurfaceOp>): nat {
    if ops == [] then 0 else Fills(ops[..|ops| - 1]) + (if ops[|ops| - 1].Fill? then 1 else 0)
  }

  lemma {:induction false} FillsAppend(a: seq<SurfaceOp>, b: seq<SurfaceOp>)
    ensures Fills(a + b) == Fills(a) + Fills(b)
    decreases |b|
  {
    if b != [] {
      assert (a + b)[..|a + b| - 1] == a + b[..|b| - 1];
      FillsAppend(a, b[..|b| - 1]);
    } else {
      assert a + b == a;
    }
  }

  /** Visible rectangles reachable through visible groups. */
  function Shown(s: Scene): nat
    decreases s
  {
    if !s.visible then 0
    else match s
      case Rect(_, _, _, _) => 1
      case Group(_, _, children) => ChildrenShown(children)
  }

  function ChildrenShown(cs: seq<Scene>): nat
    decreases cs
  {
    if cs == [] then 0 else ChildrenShown(cs[..|cs| - 1]) + Shown(cs[|cs| - 1])
  }

  /** Every shown rectangle is filled exactly once, whatever the transforms. */
  lemma {:induction false} FillsAreShown(s: Scene, m: Affine)
    ensures Fills(Trace(s, m)) == Shown(s)
    decreases s, 1
  {
    if s.visible {
      match s {
        case Rect(local, _, centered, color) =>
          var f := Fill(Path(Mul(local, m), Nodes.RectangleVertices(centered)), color);
          FillsAppend([PushState], [f]);
          FillsAppend([PushState, f], [PopState]);
          assert [PushState] + [f] + [PopState] == [PushState, f, PopState];
        case Group(local, _, children) =>
          var inner := ChildrenTrace(children, Mul(local, m));
          ChildrenFillsAreShown(children, Mul(local, m));
          FillsAppend([PushState], inner);
          FillsAppend([PushState] + inner, [PopState]);
      }
    }
  }

  lemma {:induction false} ChildrenFillsAreShown(cs: seq<Scene>, m: Affine)
    ensures Fills(ChildrenTrace(cs, m)) == ChildrenShown(cs)
    decreases cs, 0
  {
    if cs != [] {
      ChildrenFillsAreShown(cs[..|cs| - 1], m);
      FillsAreShown(cs[|cs| - 1], m);
      FillsAppend(ChildrenTrace(cs[..|cs| - 1], m), Trace(cs[|cs| - 1], m));
    }
  }

  /**
   * A rectangle inside a group is drawn with each corner mapped first by the
   * rectangle's local transform, then by the group's, then by the context's.
   */
  lemma NestedCornersCompose(g: Affine, r: Affine, centered: bool, color: RGBA, m: Affine, i: int)
    requires 0 <= i < 4
    ensures var t := Trace(Group(g, true, [Rect(r, true, centered, color)]), m);
            |t| == 5 && t[2].Fill? && |t[2].path| == 4
            && t[2].path[i] == Apply(m, Apply(g, Apply(r, Nodes.RectangleVertices(centered)[i]))).(z := 0.0)
  {
    var rect := Rect(r, true, centered, color);
    assert ChildrenTrace([rect], Mul(g, m)) == Trace(rect, Mul(g, m)) by {
      assert [rect][..0] == [];
    }
    var v := Nodes.RectangleVertices(centered)[i];
    ApplyMul(r, Mul(g, m), v);
    ApplyMul(g, m, Apply(r, v));
  }

  /** Two translations compose into the translation by their sum. */
  lemma TranslationsAdd(x1: real, y1: real, x2: real, y2: real)
    ensures Mul(Translation(x1, y1), Translation(x2, y2)) == Translation(x1 + x2, y1 + y2)
  {
  }

  /**
   * Nested translations add up: a unit-square leaf at (x3, y3) in a group at
   * (x2, y2) in a group at (x1, y1) draws its origin corner at the sum (a
   * leaf at (5, 0) in groups at (10, 0) and (20, 0) draws it at (35, 0)).
   */
  lemma NestedTranslations(x1: real, y1: real, x2: real, y2: real, x3: real, y3: real, color: RGBA)
    ensures var t := Trace(Group(Translation(x1, y1), true,
                                 [Group(Translation(x2, y2), true,
                                        [Rect(Translation(x3, y3), true, false, color)])]), Identity);
            |t| == 7 && t[3].Fill? && |t[3].path| == 4
            && t[3].path[0] == Vector3(x3 + (x2 + x1), y3 + (y2 + y1), 0.0)
  {
    var rect := Rect(Translation(x3, y3), true, false, color);
    var inner := Group(Translation(x2, y2), true, [rect]);
    IdentityIsUnit(Translation(x1, y1));
    TranslationsAdd(x2, y2, x1, y1);
    TranslationsAdd(x3, y3, x2 + x1, y2 + y1);
    var m := Translation(x3 + (x2 + x1), y3 + (y2 + y1));
    var fill := Fill(Path(m, Nodes.RectangleVertices(false)), color);
    assert Trace(rect, Translation(x2 + x1, y2 + y1)) == [PushState, fill, PopState];
    assert ChildrenTrace([rect], Translation(x2 + x1, y2 + y1)) == [PushState, fill, PopState] by {
      assert [rect][..0] == [];
    }
    assert Trace(inner, Translation(x1, y1)) == [PushState, PushState, fill, PopState, PopState];
    assert ChildrenTrace([inner], Translation(x1, y1)) == [PushState, PushState, fill, PopState, PopState] by {
      assert [inner][..0] == [];
    }
    assert Nodes.RectangleVertices(false)[0] == Zero;
  }
}
