/**
 * engine/node.go and engine/group_node.go: the scene-graph node. BaseNode,
 * RectangleNode and GroupNode are one class here, told apart by `kind`: every
 * node has the BaseNode fields, a rectangle also has its centred flag and its
 * four vertices, a group its ordered children.
 *
 * A node keeps its local transform in its own AffineTransform object and
 * recomputes it lazily: every setter of position, rotation or scale marks
 * the node dirty, and calcTransform rebuilds the transform only then.
 */
module Nodes {
  import opened Engine
  import opened AffineAlgebra
  import opened AffineTransforms
  import opened RenderContexts

  datatype Kind = Rectangle | Group

  /** Every field of a node except its cached transform. */
  datatype NodeState = NodeState(
    name: string,
    parent: Node?,
    dirty: bool,
    visible: bool,
    position: Vector3,
    scale: Vector3,
    rotation: real,
    solidColor: RGBA,
    centered: bool,
    vertices: seq<Vector3>,
    nodes: seq<Node>)

  /**
   * What Initialize leaves: dirty, visible, at the origin, scale (1, 1),
   * no rotation, white, and (from new(...)) no name, parent, vertices or
   * children.
   */
  const Initial := NodeState("", null, true, true, Zero, Vector3(1.0, 1.0, 0.0), 0.0, White,
                             false, [], [])

  /** The corners NewRectangleNode gives a rectangle: the unit square, or that square centred on the origin. */
  function RectangleVertices(centered: bool): seq<Vector3> {
    if centered then
      [With2Components(-0.5, -0.5), With2Components(-0.5, 0.5),
       With2Components(0.5, 0.5), With2Components(0.5, -0.5)]
    else
      [With2Components(0.0, 0.0), With2Components(0.0, 1.0),
       With2Components(1.0, 1.0), With2Components(1.0, 0.0)]
  }

  /** The centred rectangle is the unit square moved by (-0.5, -0.5). */
  lemma CenteredIsShifted(i: int)
    requires 0 <= i < 4
    ensures RectangleVertices(true)[i] == Add(RectangleVertices(false)[i], With2Components(-0.5, -0.5))
  {
  }

  // ---------------------------------------------------------------------
  // The local transform
  // ---------------------------------------------------------------------

  /**
   * What calcTransform builds on a dirty node: the identity, translated by
   * the position, rotated when the rotation is not zero, scaled when the
   * scale is not (1, 1).
   */
  function LocalTransform(position: Vector3, rotation: real, scale: Vector3, trig: Trig): Affine {
    var t := Translated(Identity, position.x, position.y);
    var r := if rotation != 0.0 then Rotated(t, trig.sin(rotation), trig.cos(rotation)) else t;
    if scale.x != 1.0 || scale.y != 1.0 then Scaled(r, scale.x, scale.y) else r
  }

  /** The same product with neither step skipped: scale, then rotate, then translate. */
  function ComposedTransform(position: Vector3, rotation: real, scale: Vector3, trig: Trig): Affine {
    Mul(Scaling(scale.x, scale.y),
        Mul(Rotated(Identity, trig.sin(rotation), trig.cos(rotation)), Translation(position.x, position.y)))
  }

  /**
   * Skipping Rotate for a zero rotation and Scale for the scale (1, 1) gives
   * the same matrix as applying them, given only sin 0 = 0 and cos 0 = 1.
   */
  lemma SkipsAreExact(position: Vector3, rotation: real, scale: Vector3, trig: Trig)
    requires trig.AtZero()
    ensures LocalTransform(position, rotation, scale, trig) == ComposedTransform(position, rotation, scale, trig)
  {
    var t := Translated(Identity, position.x, position.y);
    var s, c := trig.sin(rotation), trig.cos(rotation);
    var r := Rotated(t, s, c);
    TranslatedIsMul(Identity, position.x, position.y);
    IdentityIsUnit(Translation(position.x, position.y));
    RotatedIsMul(t, s, c);
    ScaledIsMul(r, scale.x, scale.y);
    if rotation == 0.0 {
      assert r == t by {
        assert s == 0.0 && c == 1.0;
      }
    }
    if scale.x == 1.0 && scale.y == 1.0 {
      assert Scaled(r, scale.x, scale.y) == r;
    }
  }

  /** The local transform maps p to translate(rotate(scale(p))). */
  lemma LocalTransformMaps(position: Vector3, rotation: real, scale: Vector3, trig: Trig, p: Vector3)
    requires trig.AtZero()
    ensures Apply(LocalTransform(position, rotation, scale, trig), p)
         == Apply(Translation(position.x, position.y),
                  Apply(Rotated(Identity, trig.sin(rotation), trig.cos(rotation)),
                        Apply(Scaling(scale.x, scale.y), p)))
  {
    SkipsAreExact(position, rotation, scale, trig);
    var rt := Mul(Rotated(Identity, trig.sin(rotation), trig.cos(rotation)), Translation(position.x, position.y));
    ApplyMul(Scaling(scale.x, scale.y), rt, p);
    ApplyMul(Rotated(Identity, trig.sin(rotation), trig.cos(rotation)), Translation(position.x, position.y),
             Apply(Scaling(scale.x, scale.y), p));
  }

  // ---------------------------------------------------------------------
  // Child lists
  // ---------------------------------------------------------------------

  /** s with its first occurrence of n deleted; s itself when n is absent. */
  function RemoveFirst(s: seq<Node>, n: Node): (r: seq<Node>)
    ensures n in s ==> |r| == |s| - 1
    ensures n !in s ==> r == s
  {
    if s == [] then []
    else if s[0] == n then s[1..]
    else [s[0]] + RemoveFirst(s[1..], n)
  }

  /** Deleting the first occurrence, at j, splices s around j. */
  lemma {:induction false} RemoveFirstAt(s: seq<Node>, n: Node, j: nat)
    requires j < |s| && s[j] == n && n !in s[..j]
    ensures RemoveFirst(s, n) == s[..j] + s[j + 1..]
    decreases j
  {
    if j > 0 {
      assert s[0] != n by {
        assert s[0] == s[..j][0];
      }
      assert s[1..][..j - 1] == s[1..j];
      RemoveFirstAt(s[1..], n, j - 1);
      assert s[1..][j - 1 + 1..] == s[j + 1..];
      assert [s[0]] + s[1..j] == s[..j];
    }
  }

  /** Removal takes exactly one copy of n out of the child list, and nothing else. */
  lemma {:induction false} RemoveFirstMultiset(s: seq<Node>, n: Node)
    ensures multiset(RemoveFirst(s, n)) == multiset(s) - multiset{n}
  {
    if s != [] {
      assert s == [s[0]] + s[1..];
      if s[0] != n {
        RemoveFirstMultiset(s[1..], n);
      }
    }
  }

  class Node {
    const kind: Kind
    var name: string
    var parent: Node?
    /** The cached local transform. */
    const transform: AffineTransform
    var dirty: bool
    var visible: bool
    var position: Vector3
    var scale: Vector3
    var rotation: real
    var solidColor: RGBA
    /** RectangleNode only. */
    var centered: bool
    var vertices: seq<Vector3>
    /** GroupNode only: the children, in the order they were added. */
    var nodes: seq<Node>

    function State(): NodeState
      reads this
    {
      NodeState(name, parent, dirty, visible, position, scale, rotation, solidColor, centered, vertices, nodes)
    }

    /** new(...) followed by Initialize. */
    constructor Initialize(kind: Kind)
      ensures this.kind == kind && State() == Initial
      ensures fresh(transform) && transform.Value() == Identity
    {
      this.kind := kind;
      name := "";
      parent := null;
      dirty := true;
      visible := true;
      position := Zero;
      scale := Set2Components(Zero, 1.0, 1.0);
      rotation := 0.0;
      solidColor := White;
      centered := false;
      vertices := [];
      nodes := [];
      transform := new AffineTransform();
    }

    // Setters and getters: only position, scale and rotation mark the node dirty.

    method SetColor(color: RGBA)
      modifies this
      ensures State() == old(State()).(solidColor := color)
    {
      solidColor := color;
    }

    function Position(): (r: Vector3)
      reads this
      ensures r == State().position
    {
      position
    }

    method SetPosition(v: Vector3)
      modifies this
      ensures State() == old(State()).(dirty := true, position := Set2Components(old(position), v.x, v.y))
    {
      dirty := true;
      position := Set2Components(position, v.x, v.y);
    }

    method SetPositionBy2Comp(x: real, y: real)
      modifies this
      ensures State() == old(State()).(dirty := true, position := Set2Components(old(position), x, y))
    {
      dirty := true;
      position := Set2Components(position, x, y);
    }

    /** Scale() as written: it returns the position, not the scale. */
    function ScaleAsWritten(): (r: Vector3)
      reads this
      ensures r == State().position
    {
      position
    }

    /** Scale() as intended: the scale. */
    function Scale(): (r: Vector3)
      reads this
      ensures r == State().scale
    {
      scale
    }

    method SetScale(v: Vector3)
      modifies this
      ensures State() == old(State()).(dirty := true, scale := Set2Components(old(scale), v.x, v.y))
    {
      dirty := true;
      scale := Set2Components(scale, v.x, v.y);
    }

    /** SetScaleUniform multiplies the current scale by s; it does not set it to (s, s). */
    method SetScaleUniform(s: real)
      modifies this
      ensures State() == old(State()).(dirty := true, scale := ScaleBy(old(scale), s))
    {
      dirty := true;
      scale := ScaleBy(scale, s);
    }

    function Rotation(): (r: real)
      reads this
      ensures r == State().rotation
    {
      rotation
    }

    method SetRotation(angle: real)
      modifies this
      ensures State() == old(State()).(dirty := true, rotation := angle)
    {
      dirty := true;
      rotation := angle;
    }

    method SetRotationByDegree(angle: real)
      modifies this
      ensures State() == old(State()).(dirty := true, rotation := angle * DegreeToRadians)
    {
      dirty := true;
      rotation := angle * DegreeToRadians;
    }

    function Name(): (r: string)
      reads this
      ensures r == State().name
    {
      name
    }

    method SetName(s: string)
      modifies this
      ensures State() == old(State()).(name := s)
    {
      name := s;
    }

    method SetVisible()
      modifies this
      ensures State() == old(State()).(visible := true)
    {
      visible := true;
    }

    method SetInvisible()
      modifies this
      ensures State() == old(State()).(visible := false)
    {
      visible := false;
    }

    function IsVisible(): (r: bool)
      reads this
      ensures r == State().visible
    {
      visible
    }

    /**
     * The local transform calcTransform returns: rebuilt from position,
     * rotation and scale on a dirty node, the cached one on a clean node.
     */
    function Local(trig: Trig): Affine
      reads this, transform
    {
      if dirty then LocalTransform(position, rotation, scale, trig) else transform.Value()
    }

    /**
     * The cache invariant: a clean node's cached transform is the one its
     * position, rotation and scale give. A new node is dirty, the setters of
     * those three fields make it dirty, and calcTransform rebuilds the cache
     * as it makes the node clean, so every step keeps it.
     */
    ghost predicate CacheValid(trig: Trig)
      reads this, transform
    {
      !dirty ==> transform.Value() == LocalTransform(position, rotation, scale, trig)
    }

    /** calcTransform: rebuild the cached transform if dirty, then return it. */
    method CalcTransform(trig: Trig) returns (t: AffineTransform)
      modifies this, transform
      ensures t == transform
      ensures transform.Value() == old(Local(trig))
      ensures State() == old(State()).(dirty := false)
      ensures CacheValid(trig) <==> old(dirty) || old(CacheValid(trig))
      ensures old(CacheValid(trig)) ==> t.Value() == LocalTransform(position, rotation, scale, trig)
    {
      if dirty {
        Rebuild(transform, position, rotation, scale, trig);
        dirty := false;
      }
      t := transform;
    }

    // GroupNode

    /** Add: append n; the last child added is rendered last. */
    method AddChild(n: Node)
      requires kind == Group
      modifies this
      ensures State() == old(State()).(nodes := old(nodes) + [n])
    {
      nodes := nodes + [n];
    }

    /** Find: the first index holding n itself, and n; (0, nil) when n is absent. */
    method Find(n: Node) returns (f: int, fno: Node?)
      requires kind == Group
      ensures n in nodes ==> 0 <= f < |nodes| && nodes[f] == n && n !in nodes[..f] && fno == n
      ensures n !in nodes ==> f == 0 && fno == null
    {
      f, fno := 0, null;
      var i := 0;
      while i < |nodes|
        invariant 0 <= i <= |nodes|
        invariant n !in nodes[..i]
      {
        if nodes[i] == n {
          f, fno := i, nodes[i];
          return;
        }
        i := i + 1;
      }
      assert nodes[..i] == nodes;
    }

    /** Remove: delete the first occurrence of n by shifting the tail down one place. */
    method Remove(n: Node)
      requires kind == Group
      modifies this
      ensures State() == old(State()).(nodes := RemoveFirst(old(nodes), n))
    {
      var j, no := Find(n);
      if no != null {
        RemoveFirstAt(nodes, n, j);
        var s := nodes;
        var k := j;
        while k < |s| - 1
          invariant j <= k <= |s| - 1 && |s| == |nodes|
          invariant s[..j] == nodes[..j]
          invariant forall i :: j <= i < k ==> s[i] == nodes[i + 1]
          invariant forall i :: k <= i < |s| ==> s[i] == nodes[i]
        {
          s := s[k := s[k + 1]];
          k := k + 1;
        }
        assert s[..|s| - 1] == nodes[..j] + nodes[j + 1..];
        nodes := s[..|s| - 1];
      }
    }

    // RectangleNode

    /** Draw: fill the four corners under the current transform in the node's colour. */
    method Draw(context: RenderContext)
      requires context.Valid() && |vertices| <= MaxTransformedVertices
      modifies context, context.tPoints
      ensures context.Valid() && context.slots == old(context.slots)
      ensures context.context == old(context.context) && context.contextState == old(context.contextState)
      ensures context.Abstract() == Drawn(old(context.Abstract()),
                if vertices == [] then [old(context.tPoints[0])] else Path(context.context.Value(), vertices),
                solidColor)
    {
      context.DrawPolygon(vertices, solidColor);
    }

    /** context.Transform(n.calcTransform()): append the local transform onto the context. */
    method TransformContext(context: RenderContext, trig: Trig)
      requires context.Valid() && transform !in context.slots && transform != context.context
      modifies this, transform, context.context
      ensures context.Valid()
      ensures context.Abstract() == old(context.Abstract()).(current := Mul(old(Local(trig)), old(context.context.Value())))
      ensures State() == old(State()).(dirty := false)
      ensures transform.Value() == old(Local(trig))
      ensures CacheValid(trig) <==> old(dirty) || old(CacheValid(trig))
    {
      var t := CalcTransform(trig);
      context.Transform(t);
    }

    /**
     * RectangleNode.Render, then BaseNode.Render: nothing on an invisible
     * node; otherwise Save, Transform by the local transform, Draw, Restore.
     * The context ends as it started except for the three surface calls.
     */
    method Render(context: RenderContext, trig: Trig)
      requires kind == Rectangle && 0 < |vertices| <= MaxTransformedVertices
      requires context.Valid() && |context.pool.items| > 0
      requires transform !in context.slots && transform != context.context
      modifies this, transform, context, context.context, context.tPoints, context.pool, context.slots
      ensures context.Valid() && context.slots == old(context.slots) && context.context == old(context.context)
      ensures !old(visible) ==> context.Abstract() == old(context.Abstract())
      ensures old(visible) ==> context.Abstract() == old(context.Abstract()).(surface := old(context.surface) +
                [PushState, Fill(Path(Mul(old(Local(trig)), old(context.context.Value())), vertices), solidColor),
                 PopState])
      ensures State() == if old(visible) then old(State()).(dirty := false) else old(State())
      ensures transform.Value() == if old(visible) then old(Local(trig)) else old(transform.Value())
      ensures old(CacheValid(trig)) ==> CacheValid(trig)
    {
      if !visible {
        return;
      }
      ghost var before := context.Abstract();
      context.Save();
      TransformContext(context, trig);
      Draw(context);
      context.Restore();
      PoppedUndoesPushed(before, Mul(old(Local(trig)), before.current),
                         [Fill(Path(Mul(old(Local(trig)), before.current), vertices), solidColor)]);
    }
  }

  /** The steps of calcTransform on a dirty node, applied to its cached transform. */
  method Rebuild(transform: AffineTransform, position: Vector3, rotation: real, scale: Vector3, trig: Trig)
    modifies transform
    ensures transform.Value() == LocalTransform(position, rotation, scale, trig)
  {
    transform.ToIdentity();
    transform.Translate(position.x, position.y);
    if rotation != 0.0 {
      transform.Rotate(trig.sin(rotation), trig.cos(rotation));
    }
    if scale.x != 1.0 || scale.y != 1.0 {
      transform.Scale(scale.x, scale.y);
    }
  }

  /**
   * Under the cache invariant the transform calcTransform returns, dirty or
   * clean, is always the one the node's position, rotation and scale give.
   */
  lemma CachedIsLocal(n: Node, trig: Trig)
    requires n.CacheValid(trig)
    ensures n.Local(trig) == LocalTransform(n.position, n.rotation, n.scale, trig)
  {
  }

  /** Scale() on a freshly initialised node gives the origin, not the scale (1, 1). */
  lemma ScaleAsWrittenOnNewNode(n: Node)
    requires n.State() == Initial
    ensures n.ScaleAsWritten() == Zero
    ensures n.Scale() == Vector3(1.0, 1.0, 0.0)
  {
  }

  /** A second calcTransform with no setter in between changes no coefficient. */
  method CalcTransformTwice(n: Node, trig: Trig) returns (first: Affine, second: Affine)
    modifies n, n.transform
    ensures first == second == old(n.Local(trig))
  {
    var t := n.CalcTransform(trig);
    first := t.Value();
    t := n.CalcTransform(trig);
    second := t.Value();
  }

  /** NewGroupNode: an initialised group with parent; autoAdd appends it to the parent's children. */
  method NewGroupNode(parent: Node?, autoAdd: bool) returns (g: Node)
    requires autoAdd ==> parent != null
    requires parent != null ==> parent.kind == Group
    modifies parent
    ensures fresh(g) && fresh(g.transform) && g.kind == Group
    ensures g.State() == Initial.(parent := parent) && g.transform.Value() == Identity
    ensures autoAdd ==> parent.State() == old(parent.State()).(nodes := old(parent.nodes) + [g])
    ensures !autoAdd && parent != null ==> parent.State() == old(parent.State())
  {
    g := new Node.Initialize(Group);
    g.parent := parent;
    g.nodes := [];
    if autoAdd {
      parent.AddChild(g);
    }
  }

  /** NewRectangleNode: an initialised rectangle with its four corners; autoAdd appends it to the parent. */
  method NewRectangleNode(parent: Node?, centered: bool, autoAdd: bool) returns (g: Node)
    requires autoAdd ==> parent != null
    requires parent != null ==> parent.kind == Group
    modifies parent
    ensures fresh(g) && fresh(g.transform) && g.kind == Rectangle
    ensures g.State() == Initial.(parent := parent, centered := centered, vertices := RectangleVertices(centered))
    ensures g.transform.Value() == Identity
    ensures autoAdd ==> parent.State() == old(parent.State()).(nodes := old(parent.nodes) + [g])
    ensures !autoAdd && parent != null ==> parent.State() == old(parent.State())
  {
    g := new Node.Initialize(Rectangle);
    g.centered := centered;
    g.parent := parent;
    if autoAdd {
      parent.AddChild(g);
    }
    var v0, v1, v2, v3 := Zero, Zero, Zero, Zero;
    if centered {
      v0, v1, v2, v3 := Set2Components(v0, -0.5, -0.5), Set2Components(v1, -0.5, 0.5),
                        Set2Components(v2, 0.5, 0.5), Set2Components(v3, 0.5, -0.5);
    } else {
      v0, v1, v2, v3 := Set2Components(v0, 0.0, 0.0), Set2Components(v1, 0.0, 1.0),
                        Set2Components(v2, 1.0, 1.0), Set2Components(v3, 1.0, 0.0);
    }
    g.vertices := [v0, v1, v2, v3];
  }
}
