/**
 * _examples/simple_node/run.go: the SimpleNode demo. A key-edge detector,
 * and a game that builds a small tree (an orange rectangle in a group that
 * spins inside a group holding a white rectangle) and turns the two spinning
 * nodes a little on every Update, so the orange rectangle orbits the white
 * one.
 *
 * The key readings come from SDL's keyboard state; here the reading of the
 * T key is a parameter. The engine's root group is a parameter of the game.
 */
module SimpleNode {
  import opened Engine
  import opened AffineAlgebra
  import opened RenderContexts
  import Nodes
  import opened Scenes

  // ---------------------------------------------------------------------
  // keyState
  // ---------------------------------------------------------------------

  /** isKeyUp's answer: the key read 0 at the previous call and reads 1 now. */
  function KeyUp(prev: Byte, state: Byte): bool {
    prev == 0 && state == 1
  }

  class KeyState {
    var prevState: Byte

    /** new(keyState): Go's zero value. */
    constructor ()
      ensures prevState == 0
    {
      prevState := 0;
    }

    /** isKeyUp: report the 0-to-1 edge, then remember the reading. */
    method IsKeyUp(state: Byte) returns (up: bool)
      modifies this
      ensures up <==> old(prevState) == 0 && state == 1
      ensures prevState == state
    {
      up := false;
      if prevState == 0 && state == 1 {
        up := true;
      }
      prevState := state;
    }
  }

  /** The answers of successive isKeyUp calls on the readings, from a previous reading prev. */
  function Answers(prev: Byte, readings: seq<Byte>): (r: seq<bool>)
    ensures |r| == |readings|
    decreases |readings|
  {
    if readings == [] then [] else [KeyUp(prev, readings[0])] + Answers(readings[0], readings[1..])
  }

  /** The reading before call i: prev for the first call, the previous reading after that. */
  function Before(prev: Byte, readings: seq<Byte>, i: nat): Byte
    requires i < |readings|
  {
    if i == 0 then prev else readings[i - 1]
  }

  /** Call i answers true exactly when reading i is 1 and the reading before it is 0. */
  lemma {:induction false} AnswersAreEdges(prev: Byte, readings: seq<Byte>)
    ensures forall i :: 0 <= i < |readings| ==>
              (Answers(prev, readings)[i] <==> readings[i] == 1 && Before(prev, readings, i) == 0)
    decreases |readings|
  {
    if readings != [] {
      var rest := readings[1..];
      AnswersAreEdges(readings[0], rest);
      forall i | 0 < i < |readings|
        ensures Answers(prev, readings)[i] == Answers(readings[0], rest)[i - 1]
        ensures Before(prev, readings, i) == Before(readings[0], rest, i - 1)
      {
      }
    }
  }

  /** A key held down reports true at most once: at the first call, and only if it was up before. */
  lemma HeldKeyReportsOnce(prev: Byte, readings: seq<Byte>)
    requires forall i :: 0 <= i < |readings| ==> readings[i] == 1
    ensures forall i :: 0 <= i < |readings| ==> (Answers(prev, readings)[i] <==> i == 0 && prev == 0)
  {
    AnswersAreEdges(prev, readings);
  }

  /** A reading of 0 never reports true, whatever came before. */
  lemma ReleasedKeyNeverReports(prev: Byte, readings: seq<Byte>, i: nat)
    requires i < |readings| && readings[i] == 0
    ensures !Answers(prev, readings)[i]
  {
    AnswersAreEdges(prev, readings);
  }

  // ---------------------------------------------------------------------
  // The game
  // ---------------------------------------------------------------------

  /** The colour build2 gives the orbiting rectangle. */
  const Orange := RGBA(255, 127, 0, 255)

  /** The scale every node is initialised with. */
  const InitialScale := Vector3(1.0, 1.0, 0.0)

  /** A node's local transform from its fields: what calcTransform returns once it has rebuilt it. */
  function LocalOf(position: Vector3, rotation: real, scale: Vector3, trig: Trig): Affine {
    Nodes.LocalTransform(position, rotation, scale, trig)
  }

  /** The shape of the tree build2 makes below the root, given the four local transforms. */
  function DemoTree(wgroup: Affine, white: Affine, ogroup: Affine, orange: Affine): Scene {
    Group(wgroup, true, [Rect(white, true, true, White), Group(ogroup, true, [Rect(orange, true, true, Orange)])])
  }

  /**
   * That tree with white turned by whiteTurn and ogroup by groupTurn, in
   * radians; Update with angle a turns them by -a / 4 and a degrees.
   */
  function DemoAt(whiteTurn: real, groupTurn: real, trig: Trig): Scene {
    DemoTree(LocalOf(With2Components(150.0, 150.0), 0.0, InitialScale, trig),
             LocalOf(Zero, whiteTurn, With2Components(25.0, 25.0), trig),
             LocalOf(Zero, groupTurn, InitialScale, trig),
             LocalOf(With2Components(50.0, 0.0), 0.0, With2Components(15.0, 15.0), trig))
  }

  class Game {
    const tKey: KeyState
    var wgroup: Nodes.Node?
    var white: Nodes.Node?
    var ogroup: Nodes.Node?
    var orange: Nodes.Node?
    var angle: real

    /**
     * The tree build2 leaves: root, then wgroup holding white and ogroup,
     * ogroup holding orange, every node visible, with the positions, scales,
     * colours build2 sets. Only the rotations of white and ogroup
     * are left free; Update sets them.
     */
    ghost predicate Valid()
      reads this, wgroup, white, ogroup, orange
    {
      && wgroup != null && white != null && ogroup != null && orange != null
      && wgroup != ogroup && white != orange
      && wgroup.kind == Nodes.Group && ogroup.kind == Nodes.Group
      && white.kind == Nodes.Rectangle && orange.kind == Nodes.Rectangle
      && wgroup.nodes == [white, ogroup] && ogroup.nodes == [orange]
      && white.parent == wgroup && ogroup.parent == wgroup && orange.parent == ogroup
      && wgroup.visible && white.visible && ogroup.visible && orange.visible
      && wgroup.position == With2Components(150.0, 150.0) && wgroup.scale == InitialScale && wgroup.rotation == 0.0
      && white.position == Zero && white.scale == With2Components(25.0, 25.0)
      && white.centered && white.solidColor == White && white.vertices == Nodes.RectangleVertices(true)
      && ogroup.position == Zero && ogroup.scale == InitialScale
      && orange.position == With2Components(50.0, 0.0) && orange.scale == With2Components(15.0, 15.0)
      && orange.rotation == 0.0
      && orange.centered && orange.solidColor == Orange && orange.vertices == Nodes.RectangleVertices(true)
    }

    /** The rotations Update leaves after running with the given angle. */
    ghost predicate Posed(a: real)
      reads this, wgroup, white, ogroup, orange
    {
      Valid() && white.rotation == -a / 4.0 * DegreeToRadians && ogroup.rotation == a * DegreeToRadians
    }

    /**
     * The cache invariant of the four nodes: each clean node's cached
     * transform is the one its fields give, so calcTransform returns that
     * transform whether it rebuilds it or not.
     */
    ghost predicate Cached(trig: Trig)
      requires Valid()
      reads this, wgroup, white, ogroup, orange, wgroup.transform, white.transform, ogroup.transform,
            orange.transform
    {
      wgroup.CacheValid(trig) && white.CacheValid(trig) && ogroup.CacheValid(trig) && orange.CacheValid(trig)
    }

    /** The tree as the snapshot the render walk is proved over. */
    ghost function Snapshot(trig: Trig): Scene
      requires Valid()
      reads this, wgroup, white, ogroup, orange
    {
      Group(LocalOf(wgroup.position, wgroup.rotation, wgroup.scale, trig), wgroup.visible,
            [Rect(LocalOf(white.position, white.rotation, white.scale, trig), white.visible, white.centered,
                  white.solidColor),
             Group(LocalOf(ogroup.position, ogroup.rotation, ogroup.scale, trig), ogroup.visible,
                   [Rect(LocalOf(orange.position, orange.rotation, orange.scale, trig), orange.visible,
                         orange.centered, orange.solidColor)])])
    }

    /** newGame: a fresh key state, then build2 on the engine's root. */
    constructor (root: Nodes.Node)
      requires root.kind == Nodes.Group
      modifies root
      ensures Posed(0.0) && angle == 0.0 && tKey.prevState == 0
      ensures wgroup.dirty && white.dirty && ogroup.dirty && orange.dirty
      ensures fresh(wgroup) && fresh(white) && fresh(ogroup) && fresh(orange)
      ensures root.State() == old(root.State()).(nodes := old(root.nodes) + [wgroup])
      ensures wgroup.parent == root
    {
      tKey := new KeyState();
      new;
      Build2(root);
    }

    /**
     * build2: wgroup at (150, 150) under the root; in it the centred white
     * rectangle, its scale multiplied by 25, then ogroup; in ogroup the
     * centred orange rectangle at (50, 0), its scale multiplied by 15. Every
     * node is added as it is made, so the root ends with wgroup appended.
     */
    method Build2(root: Nodes.Node)
      requires root.kind == Nodes.Group
      modifies this, root
      ensures Posed(0.0) && angle == 0.0
      ensures wgroup.dirty && white.dirty && ogroup.dirty && orange.dirty
      ensures fresh(wgroup) && fresh(white) && fresh(ogroup) && fresh(orange)
      ensures root.State() == old(root.State()).(nodes := old(root.nodes) + [wgroup])
      ensures wgroup.parent == root
    {
      var wg := MakeWhiteGroup(root);
      var wh := MakeWhiteRect(wg);
      var og := MakeOrangeGroup(wg);
      var or := MakeOrangeRect(og);
      wgroup, white, ogroup, orange := wg, wh, og, or;
      angle := 0.0;
    }

    /**
     * Update: read the T key (the answer is unused), turn white by -angle / 4
     * degrees and ogroup by angle degrees, both marked dirty, then add 2 to
     * the angle. The other two nodes are untouched.
     */
    method Update(dt: real, keyT: Byte)
      requires Valid()
      modifies this, tKey, white, ogroup
      ensures Posed(old(angle)) && angle == old(angle) + 2.0
      ensures wgroup == old(wgroup) && white == old(white) && ogroup == old(ogroup) && orange == old(orange)
      ensures white.dirty && ogroup.dirty && tKey.prevState == keyT
      ensures forall trig :: old(Cached(trig)) ==> Cached(trig)
    {
      assert wgroup != white && wgroup != ogroup && orange != white && orange != ogroup;
      var up := tKey.IsKeyUp(keyT);
      if up {
      }
      white.SetRotationByDegree(-angle / 4.0);
      ogroup.SetRotationByDegree(angle);
      angle := angle + 2.0;
      forall trig | old(Cached(trig))
        ensures Cached(trig)
      {
        assert old(wgroup.CacheValid(trig)) && old(orange.CacheValid(trig));
      }
    }
  }

  // The four steps of build2, one node each.

  /** whiteGroup: a group at (150, 150), appended to the root. */
  method MakeWhiteGroup(root: Nodes.Node) returns (wg: Nodes.Node)
    requires root.kind == Nodes.Group
    modifies root
    ensures fresh(wg) && wg.kind == Nodes.Group
    ensures wg.State() == Nodes.Initial.(name := "whiteGroup", parent := root,
                                         position := With2Components(150.0, 150.0))
    ensures root.State() == old(root.State()).(nodes := old(root.nodes) + [wg])
  {
    wg := Nodes.NewGroupNode(root, true);
    wg.SetName("whiteGroup");
    wg.SetPositionBy2Comp(150.0, 150.0);
  }

  /** WhiteRect: a centred rectangle, its scale multiplied by 25, appended to wg. */
  method MakeWhiteRect(wg: Nodes.Node) returns (wh: Nodes.Node)
    requires wg.kind == Nodes.Group
    modifies wg
    ensures fresh(wh) && wh.kind == Nodes.Rectangle
    ensures wh.State() == Nodes.Initial.(name := "WhiteRect", parent := wg, centered := true,
                                         vertices := Nodes.RectangleVertices(true),
                                         scale := With2Components(25.0, 25.0))
    ensures wg.State() == old(wg.State()).(nodes := old(wg.nodes) + [wh])
  {
    wh := Nodes.NewRectangleNode(wg, true, true);
    wh.SetName("WhiteRect");
    wh.SetScaleUniform(25.0);
  }

  /** orangeGroup: a group at the origin, appended to wg. */
  method MakeOrangeGroup(wg: Nodes.Node) returns (og: Nodes.Node)
    requires wg.kind == Nodes.Group
    modifies wg
    ensures fresh(og) && og.kind == Nodes.Group
    ensures og.State() == Nodes.Initial.(name := "orangeGroup", parent := wg)
    ensures wg.State() == old(wg.State()).(nodes := old(wg.nodes) + [og])
  {
    og := Nodes.NewGroupNode(wg, true);
    og.SetName("orangeGroup");
  }

  /** OrangeRect: a centred orange rectangle at (50, 0), its scale multiplied by 15, appended to og. */
  method MakeOrangeRect(og: Nodes.Node) returns (or: Nodes.Node)
    requires og.kind == Nodes.Group
    modifies og
    ensures fresh(or) && or.kind == Nodes.Rectangle
    ensures or.State() == Nodes.Initial.(name := "OrangeRect", parent := og, centered := true,
                                         vertices := Nodes.RectangleVertices(true), solidColor := Orange,
                                         position := With2Components(50.0, 0.0),
                                         scale := With2Components(15.0, 15.0))
    ensures og.State() == old(og.State()).(nodes := old(og.nodes) + [or])
  {
    or := Nodes.NewRectangleNode(og, true, true);
    or.SetName("OrangeRect");
    or.SetColor(Orange);
    or.SetPositionBy2Comp(50.0, 0.0);
    or.SetScaleUniform(15.0);
  }

  /** LocalOf depends on nothing but its arguments. */
  lemma SameLocal(p: Vector3, r: real, s: Vector3, p': Vector3, r': real, s': Vector3, trig: Trig)
    requires p == p' && r == r' && s == s'
    ensures LocalOf(p, r, s, trig) == LocalOf(p', r', s', trig)
  {
  }

  /**
   * The snapshot of a built game whose white rectangle is turned by r1 and
   * whose orange group is turned by r2 is the demo tree at those turns; after
   * Update with angle a they are -a / 4 and a degrees (Posed).
   */
  lemma SnapshotIsDemo(g: Game, r1: real, r2: real, trig: Trig)
    requires g.Valid() && g.white.rotation == r1 && g.ogroup.rotation == r2
    ensures g.Snapshot(trig) == DemoAt(r1, r2, trig)
  {
    SameLocal(g.wgroup.position, g.wgroup.rotation, g.wgroup.scale, With2Components(150.0, 150.0), 0.0, InitialScale, trig);
    SameLocal(g.white.position, g.white.rotation, g.white.scale, Zero, r1, With2Components(25.0, 25.0), trig);
    SameLocal(g.ogroup.position, g.ogroup.rotation, g.ogroup.scale, Zero, r2, InitialScale, trig);
    SameLocal(g.orange.position, g.orange.rotation, g.orange.scale, With2Components(50.0, 0.0), 0.0,
              With2Components(15.0, 15.0), trig);
  }

  /** build2 leaves every node dirty, so the cache invariant holds for any sine and cosine. */
  lemma BuiltIsCached(g: Game, trig: Trig)
    requires g.Valid() && g.wgroup.dirty && g.white.dirty && g.ogroup.dirty && g.orange.dirty
    ensures g.Cached(trig)
  {
  }

  /**
   * Under the cache invariant the snapshot holds exactly the transforms
   * calcTransform returns for the four nodes, clean or dirty: it is the tree
   * a frame renders, not only the tree the fields describe.
   */
  lemma SnapshotIsRendered(g: Game, trig: Trig)
    requires g.Valid() && g.Cached(trig)
    ensures g.Snapshot(trig) == DemoTree(g.wgroup.Local(trig), g.white.Local(trig), g.ogroup.Local(trig),
                                         g.orange.Local(trig))
  {
    Nodes.CachedIsLocal(g.wgroup, trig);
    Nodes.CachedIsLocal(g.white, trig);
    Nodes.CachedIsLocal(g.ogroup, trig);
    Nodes.CachedIsLocal(g.orange, trig);
  }

  // ---------------------------------------------------------------------
  // What the demo draws
  // ---------------------------------------------------------------------

  /** The midpoint of two points, in the plane. */
  function Midpoint(p: Vector3, q: Vector3): Vector3 {
    Vector3((p.x + q.x) / 2.0, (p.y + q.y) / 2.0, 0.0)
  }

  /** The diagonal corners 0 and 2 of a centred rectangle meet at the image of the origin. */
  lemma CentreOfDiagonal(m: Affine)
    ensures var p := Path(m, Nodes.RectangleVertices(true));
            Midpoint(p[0], p[2]) == Apply(m, Zero)
  {
  }

  /**
   * Render of the demo tree: ten surface calls, the white rectangle filled
   * third under white . wgroup, the orange one filled seventh under
   * orange . ogroup . wgroup.
   */
  lemma DemoTrace(wg: Affine, wh: Affine, og: Affine, or: Affine)
    ensures Trace(DemoTree(wg, wh, og, or), Identity)
         == [PushState,
             PushState, Fill(Path(Mul(wh, Mul(wg, Identity)), Nodes.RectangleVertices(true)), White), PopState,
             PushState,
             PushState, Fill(Path(Mul(or, Mul(og, Mul(wg, Identity))), Nodes.RectangleVertices(true)), Orange), PopState,
             PopState,
             PopState]
  {
    var m := Mul(wg, Identity);
    var white := Rect(wh, true, true, White);
    var orange := Rect(or, true, true, Orange);
    var inner := Group(og, true, [orange]);
    assert ChildrenTrace([orange], Mul(og, m)) == Trace(orange, Mul(og, m)) by {
      assert [orange][..0] == [];
    }
    assert ChildrenTrace([white, inner], m) == Trace(white, m) + Trace(inner, m) by {
      assert [white, inner][..1] == [white];
      assert ChildrenTrace([white], m) == Trace(white, m) by {
        assert [white][..0] == [];
      }
    }
  }

  /** Two plain-real facts about Dot with a row of the identity. */
  lemma DotsWithUnits(s: real, c: real)
    ensures Dot(1.0, c, 0.0, s) == c && Dot(0.0, c, 1.0, s) == s
    ensures Dot(0.0, c, -1.0, s) == -s && Dot(1.0, c, -0.0, s) == c
  {
  }

  /** Dot with the origin. */
  lemma DotWithOrigin(p: real, q: real)
    ensures Dot(p, 0.0, q, 0.0) == 0.0
  {
  }

  /** Translating the identity gives the translation. */
  lemma TranslatedIdentity(x: real, y: real)
    ensures Translated(Identity, x, y) == Translation(x, y)
  {
    assert Dot(1.0, x, 0.0, y) == x && Dot(0.0, x, 1.0, y) == y;
  }

  /** Scaling and rotation keep the origin where it is, so a node's local transform takes it to the node's position. */
  lemma OriginToPosition(position: Vector3, rotation: real, scale: Vector3, trig: Trig)
    ensures Apply(LocalOf(position, rotation, scale, trig), Zero) == With2Components(position.x, position.y)
  {
    var m := LocalOf(position, rotation, scale, trig);
    TranslatedIdentity(position.x, position.y);
    DotWithOrigin(m.a, m.c);
    DotWithOrigin(m.b, m.d);
  }

  /** An unturned, unscaled node's local transform is the translation by its position. */
  lemma UnturnedIsTranslation(position: Vector3, trig: Trig)
    ensures LocalOf(position, 0.0, InitialScale, trig) == Translation(position.x, position.y)
  {
    TranslatedIdentity(position.x, position.y);
  }

  /** Rotating the identity by (s, c) gives the rotation matrix. */
  lemma RotatedIdentity(s: real, c: real)
    ensures Rotated(Identity, s, c) == Affine(c, s, -s, c, 0.0, 0.0)
  {
    DotsWithUnits(s, c);
  }

  /** Translating the identity by nothing leaves it. */
  lemma TranslatedByNothing()
    ensures Translated(Identity, 0.0, 0.0) == Identity
  {
    TranslatedIdentity(0.0, 0.0);
  }

  /** A turned node at the origin with unit scale: calcTransform rotates the identity. */
  lemma TurnedIsRotated(th: real, trig: Trig)
    requires th != 0.0
    ensures LocalOf(Zero, th, InitialScale, trig) == Rotated(Identity, trig.sin(th), trig.cos(th))
  {
    TranslatedByNothing();
  }

  /** An unturned node at the origin with unit scale: calcTransform leaves the identity. */
  lemma UnturnedIsIdentity(trig: Trig)
    ensures LocalOf(Zero, 0.0, InitialScale, trig) == Identity
  {
    TranslatedByNothing();
  }

  /**
   * A node at the origin with unit scale turned by th is the rotation by th
   * (s and c its sine and cosine), given sin 0 = 0 and cos 0 = 1.
   */
  lemma TurnedIsRotation(th: real, trig: Trig, s: real, c: real)
    requires trig.AtZero() && s == trig.sin(th) && c == trig.cos(th)
    ensures LocalOf(Zero, th, InitialScale, trig) == Affine(c, s, -s, c, 0.0, 0.0)
  {
    if th == 0.0 {
      UnturnedIsIdentity(trig);
    } else {
      TurnedIsRotated(th, trig);
      RotatedIdentity(s, c);
    }
  }

  /** A rotation matrix takes (x, 0) to x times (c, s). */
  lemma RotationOfAxisPoint(m: Affine, c: real, s: real, x: real)
    requires m == Affine(c, s, -s, c, 0.0, 0.0)
    ensures Apply(m, With2Components(x, 0.0)) == With2Components(x * c, x * s)
  {
    assert Dot(c, x, -s, 0.0) == x * c && Dot(s, x, c, 0.0) == x * s;
  }

  /** The translation by (x, y) moves p by (x, y). */
  lemma TranslationMoves(x: real, y: real, p: Vector3)
    ensures Apply(Translation(x, y), p) == Set2Components(p, x + p.x, y + p.y)
  {
    assert Dot(1.0, p.x, 0.0, p.y) == p.x && Dot(0.0, p.x, 1.0, p.y) == p.y;
  }

  /**
   * A leaf whose local transform takes the origin to (x, 0), in a group
   * turned to (c, s), in a group translated by (px, py): the leaf's origin
   * lands x away from (px, py) in the direction (c, s).
   */
  lemma NestedCentre(wg: Affine, og: Affine, or: Affine, px: real, py: real, x: real, c: real, s: real)
    requires wg == Translation(px, py) && og == Affine(c, s, -s, c, 0.0, 0.0)
    requires Apply(or, Zero) == With2Components(x, 0.0)
    ensures Apply(Mul(or, Mul(og, Mul(wg, Identity))), Zero) == With2Components(px + x * c, py + x * s)
  {
    IdentityIsUnit(wg);
    ApplyMul(or, Mul(og, wg), Zero);
    ApplyMul(og, wg, Apply(or, Zero));
    RotationOfAxisPoint(og, c, s, x);
    TranslationMoves(px, py, With2Components(x * c, x * s));
  }

  /** A leaf whose local transform fixes the origin, in a group translated by (px, py), is centred on (px, py). */
  lemma NestedOrigin(wg: Affine, wh: Affine, px: real, py: real)
    requires wg == Translation(px, py) && Apply(wh, Zero) == Zero
    ensures Apply(Mul(wh, Mul(wg, Identity)), Zero) == With2Components(px, py)
  {
    IdentityIsUnit(wg);
    ApplyMul(wh, wg, Zero);
    TranslationMoves(px, py, Zero);
  }

  /** The four local transforms of the demo tree. */
  lemma DemoAtParts(r1: real, r2: real, trig: Trig)
    ensures var t := DemoAt(r1, r2, trig);
            && t.Group? && |t.children| == 2 && t.children[1].Group? && |t.children[1].children| == 1
            && t.local == LocalOf(With2Components(150.0, 150.0), 0.0, InitialScale, trig)
            && t.children[0].local == LocalOf(Zero, r1, With2Components(25.0, 25.0), trig)
            && t.children[1].local == LocalOf(Zero, r2, InitialScale, trig)
            && t.children[1].children[0].local == LocalOf(With2Components(50.0, 0.0), 0.0, With2Components(15.0, 15.0), trig)
  {
  }

  /**
   * The demo tree with ogroup turned by r2 meets Orbit's conditions: wgroup
   * translates to (150, 150), white and orange take the origin to their
   * positions, and ogroup is the rotation by r2 (s and c its sine and cosine).
   */
  lemma DemoAtTurned(r1: real, r2: real, trig: Trig, s: real, c: real)
    requires trig.AtZero() && s == trig.sin(r2) && c == trig.cos(r2)
    ensures var t := DemoAt(r1, r2, trig);
            && t == DemoTree(t.local, t.children[0].local, t.children[1].local, t.children[1].children[0].local)
            && t.local == Translation(150.0, 150.0)
            && Apply(t.children[0].local, Zero) == Zero
            && t.children[1].local == Affine(c, s, -s, c, 0.0, 0.0)
            && Apply(t.children[1].children[0].local, Zero) == With2Components(50.0, 0.0)
  {
    DemoAtParts(r1, r2, trig);
    TurnedIsRotation(r2, trig, s, c);
    UnturnedIsTranslation(With2Components(150.0, 150.0), trig);
    OriginToPosition(Zero, r1, With2Components(25.0, 25.0), trig);
    OriginToPosition(With2Components(50.0, 0.0), 0.0, With2Components(15.0, 15.0), trig);
  }

  /** The point the white rectangle is centred on: wgroup's position, however white is turned. */
  lemma WhiteCentre(r1: real, r2: real, trig: Trig)
    ensures var t := DemoAt(r1, r2, trig);
            Apply(Mul(t.children[0].local, Mul(t.local, Identity)), Zero) == With2Components(150.0, 150.0)
  {
    DemoAtParts(r1, r2, trig);
    OriginToPosition(Zero, r1, With2Components(25.0, 25.0), trig);
    UnturnedIsTranslation(With2Components(150.0, 150.0), trig);
    NestedOrigin(LocalOf(With2Components(150.0, 150.0), 0.0, InitialScale, trig),
                 LocalOf(Zero, r1, With2Components(25.0, 25.0), trig), 150.0, 150.0);
  }

  /** The squared distance of x times a unit vector is x squared. */
  lemma ScaledUnitLength(x: real, s: real, c: real)
    requires s * s + c * c == 1.0
    ensures (x * c) * (x * c) + (x * s) * (x * s) == x * x
  {
    assert (x * c) * (x * c) + (x * s) * (x * s) == x * x * (s * s + c * c);
  }

  /**
   * The orange rectangle orbits the white one. Render of a tree of the
   * demo's shape whose wgroup translates to (150, 150), whose white fixes its
   * own origin (whatever its turn), whose ogroup turns by (c, s) and whose
   * orange takes its origin to (50, 0): the white fill is centred on
   * (150, 150) and the orange fill 50 units from it in the direction (c, s).
   * DemoAtTurned and OriginToPosition show that DemoAt(r1, r2) is such a tree,
   * for the sine s and cosine c of r2.
   */
  lemma Orbit(wg: Affine, wh: Affine, og: Affine, or: Affine, s: real, c: real)
    requires wg == Translation(150.0, 150.0) && og == Affine(c, s, -s, c, 0.0, 0.0)
    requires Apply(wh, Zero) == Zero && Apply(or, Zero) == With2Components(50.0, 0.0)
    requires s * s + c * c == 1.0
    ensures var t := Trace(DemoTree(wg, wh, og, or), Identity);
            && |t| == 10 && t[2].Fill? && t[6].Fill? && |t[2].path| == 4 && |t[6].path| == 4
            && var w := Midpoint(t[2].path[0], t[2].path[2]);
            var o := Midpoint(t[6].path[0], t[6].path[2]);
            && w == With2Components(150.0, 150.0)
            && o == With2Components(w.x + 50.0 * c, w.y + 50.0 * s)
            && (o.x - w.x) * (o.x - w.x) + (o.y - w.y) * (o.y - w.y) == 2500.0
  {
    DemoTrace(wg, wh, og, or);
    CentreOfDiagonal(Mul(wh, Mul(wg, Identity)));
    CentreOfDiagonal(Mul(or, Mul(og, Mul(wg, Identity))));
    NestedOrigin(wg, wh, 150.0, 150.0);
    NestedCentre(wg, og, or, 150.0, 150.0, 50.0, c, s);
    ScaledUnitLength(50.0, s, c);
  }
}
