# Ranger-Go-GG engine core in Dafny

A model of the core of a small 2D scene-graph engine written in Go, with
proofs about it. The engine's pieces are modelled here one module per file:

- the affine transform algebra (a 2x3 matrix `a b c d tx ty`), as values
  (`AffineAlgebra`) and as the mutable `AffineTransform` object with the
  package functions that write one transform into another
  (`AffineTransforms`);
- the `AffineTransformPool` and `VectorPool` FIFO free lists (`Pools`);
- the render context: a current transform, a stack of saved copies taken
  from the global pool, a 100-point scratch buffer, and the drawing surface
  it sends pushes, pops and fills to (`RenderContexts`);
- nodes: the base node's fields and setters, its lazily rebuilt local
  transform, group nodes' child lists, and rectangle nodes' four corners
  (`Nodes`);
- the render walk over a tree of nodes, with the surface calls it makes as
  its trace (`Scenes`);
- linear tweening, particles and the particle system (`Tweens`,
  `Particles`, `ParticleSystems`);
- the SimpleNode demo: the key-edge detector, the tree `build2` makes and the
  `Update` that spins it (`SimpleNode`).

Coefficients, time and positions are `real`, so every algebraic identity is
exact. Sine and cosine are never computed: the transform operations take
`(sin, cos)` as values, and nodes take a `Trig` pair of functions of which
only `sin 0 = 0` and `cos 0 = 1` are used. `Multiply(t1, t2)` means "apply
`t1`, then `t2`" (`Mul`). A node's local transform is the identity
translated by its position, then rotated (unless the rotation is 0), then
scaled (unless the scale is (1, 1)).

The render walk is stated over a `Scene` value: a snapshot of the node tree
holding each node's local transform, visibility, and a rectangle's centring
and colour. `Scenes.RenderScene` walks it on a real `RenderContext` and
produces exactly the surface calls `Scenes.Trace` describes. For the demo
tree, `SimpleNode.Game.Snapshot` builds that snapshot from the game's nodes,
and `SimpleNode.SnapshotIsDemo`, `SimpleNode.DemoAtTurned` and
`SimpleNode.Orbit` prove that the orange rectangle is drawn 50 units from
the white one, in the direction the orange group is turned to. Each node's
cached transform obeys an invariant (`Nodes.Node.CacheValid`): a clean
node's cache is the transform of its position, rotation and scale.
`SimpleNode.SnapshotIsRendered` uses it to show that the snapshot holds the
transforms a frame actually renders.

## Model

| member | source | states |
|---|---|---|
| AffineAlgebra.ApplyMul | engine/affine_transform.go:245-252 | the product `t1 . t2` applied to a point is `t2` applied to `t1` applied to it: apply t1 first, then t2 |
| AffineAlgebra.ApplyLinearMul | engine/affine_transform.go:64-69 | the linear part (`ApplyToVector`) composes in the same order and ignores both translations |
| AffineAlgebra.IdentityIsUnit | engine/affine_transform.go:55-62 | the identity is a unit on both sides of the product |
| AffineAlgebra.ApplyIdentity | engine/affine_transform.go:64-76 | `ApplyTo` and `ApplyToVector` under the identity leave every point as it is |
| AffineAlgebra.MulAssociative | engine/affine_transform.go:245-252 | the product is associative |
| AffineAlgebra.ApplyIsLinearPlusTranslation | engine/affine_transform.go:64-76 | `ApplyTo` is `ApplyToVector` plus `(tx, ty)`; `ApplyToVector` is `ApplyTo` with the translation zeroed |
| AffineAlgebra.TranslatedIsMul | engine/affine_transform.go:123-130 | `Translate(x, y)` is the translation matrix multiplied before the transform, and it leaves `a b c d` unchanged |
| AffineAlgebra.ScaledIsMul | engine/affine_transform.go:132-142 | `Scale(sx, sy)` is the scaling matrix multiplied before the transform, and it leaves `tx ty` unchanged |
| AffineAlgebra.RotatedIsMul | engine/affine_transform.go:151-207 | `Rotate` multiplies by `(c, s, -s, c)` before the transform, which is `Rotate` on the identity; `SetToRotate` builds the transpose of that matrix (the opposite sign convention); `tx ty` are unchanged |
| AffineAlgebra.RotationIsRotatedByNegatedAngle | engine/affine_transform.go:151-158 | `SetToRotate` with `(sin, cos)` builds what `Rotate` with `(-sin, cos)` makes of the identity: the rotation by the opposite angle |
| AffineAlgebra.TransposeInvolution | engine/affine_transform.go:279-285 | transposing twice is the identity on matrices; the translation is never touched |
| AffineAlgebra.InverseRoundTrip | engine/affine_transform.go:254-269 | a non-singular `t` satisfies `t . inv(t) = inv(t) . t = identity` |
| AffineAlgebra.InverseByRoundTrip | engine/affine_transform.go:254-269 | the same round trip from the coefficients the code computes with `k = 1 / det` |
| AffineAlgebra.RightInverseBy | engine/affine_transform.go:254-269 | for any `k`, `t . InverseBy(t, k)` is the uniform scaling by `k * det(t)` |
| AffineAlgebra.LeftInverseBy | engine/affine_transform.go:254-269 | for any `k`, `InverseBy(t, k) . t` is the scaling by `k * det(t)` with the matching translation |
| AffineAlgebra.InverseUndoesApply | engine/affine_transform.go:254-269 | the inverse undoes `ApplyTo` on every point, in both orders |
| AffineAlgebra.TranslateTest | engine/tests/affine_test.go:10-20 | `SetToTranslate(2, 0)` applied with `ApplyTo` to the origin gives (2, 0), as the test expects |
| AffineAlgebra.TranslateTestAsWritten | engine/tests/affine_test.go:10-20 | the test's `ApplyToVector(v)` passes one argument to a method taking two, so it does not compile as written; read as the in-place `ApplyToVector(v, v)`, the linear part leaves the origin at the origin, so x is not 2 |
| AffineAlgebra.RotateTest | engine/tests/affine_test.go:22-41 | `SetToRotate(angle)` applied linearly to (1, 0) gives `(cos, -sin)`, as the test expects; its one-argument `ApplyToVector(v)` does not compile as written and is read as the in-place `ApplyToVector(v, v)` |
| AffineTransforms.MulIntoFirstIsNotProduct | engine/affine_transform.go:245-252 | `Multiply(t1, t2)` with the receiver being `t1` does not compute `t1 . t2` (a witness pair) |
| AffineTransforms.MulIntoSecondIsNotProduct | engine/affine_transform.go:229-252 | `Multiply` into `t2`, and `PreMultiply` of the receiver by itself, do not compute the product (a witness) |
| AffineTransforms.MulIntoBothIsNotProduct | engine/affine_transform.go:245-252 | `Multiply(t, t)` into `t` does not compute the square (a witness) |
| AffineTransforms.InvertedInPlaceIsNotInverse | engine/affine_transform.go:632-641 | `AffineTransformInvertTo(t, t)` on the uniform scaling by 2 does not give its inverse |
| AffineTransforms.AffineTransform.constructor | engine/affine_transform.go:26-30 | `NewAffineTransform` is the identity `(1, 0, 0, 1, 0, 0)` |
| AffineTransforms.AffineTransform.AsTranslate | engine/affine_transform.go:32-37 | a fresh transform holding the translation by `(tx, ty)` |
| AffineTransforms.AffineTransform.AsScale | engine/affine_transform.go:39-43 | a fresh transform holding the scaling by `(sx, sy)` |
| AffineTransforms.AffineTransform.ToIdentity | engine/affine_transform.go:55-62 | the receiver becomes the identity |
| AffineTransforms.AffineTransform.ApplyToVector | engine/affine_transform.go:64-69 | `out` gets the linear image of the point in x and y and keeps its z |
| AffineTransforms.AffineTransform.ApplyTo | engine/affine_transform.go:71-76 | `out` gets the full image of the point in x and y and keeps its z |
| AffineTransforms.AffineTransform.Set | engine/affine_transform.go:104-111 | all six coefficients take the given values |
| AffineTransforms.AffineTransform.SetWithAT | engine/affine_transform.go:113-120 | all six coefficients are copied from `t`, and a distinct `t` is left unchanged |
| AffineTransforms.AffineTransform.Translate | engine/affine_transform.go:123-126 | the receiver becomes the translation concatenated onto its old value |
| AffineTransforms.AffineTransform.SetToTranslate | engine/affine_transform.go:128-130 | the receiver becomes the translation matrix |
| AffineTransforms.AffineTransform.SetToScale | engine/affine_transform.go:132-134 | the receiver becomes the scaling matrix |
| AffineTransforms.AffineTransform.Scale | engine/affine_transform.go:137-142 | the receiver becomes the scaling concatenated onto its old value |
| AffineTransforms.AffineTransform.SetToRotate | engine/affine_transform.go:151-158 | the receiver becomes `(c, -s, s, c, 0, 0)` |
| AffineTransforms.AffineTransform.Rotate | engine/affine_transform.go:179-207 | the receiver becomes the rotation concatenated onto its old value, read from buffered copies |
| AffineTransforms.AffineTransform.Skew | engine/affine_transform.go:221-224 | `c` grows by `tan y` and `b` by `tan x`; nothing else changes |
| AffineTransforms.AffineTransform.PreMultiply | engine/affine_transform.go:229-243 | for a distinct `t` the receiver becomes `old . t` and `t` is unchanged; when `t` is the receiver the result is the aliased `MulIntoSecond` |
| AffineTransforms.AffineTransform.Multiply | engine/affine_transform.go:245-252 | with a receiver distinct from both operands this is `t1 . t2`; each of the three aliased cases is stated with what it computes instead |
| AffineTransforms.AffineTransform.Invert | engine/affine_transform.go:254-269 | a non-singular receiver becomes its inverse |
| AffineTransforms.AffineTransform.Transpose | engine/affine_transform.go:279-285 | `b` and `c` are swapped |
| AffineTransforms.PointApplyAffineTransform | engine/affine_transform.go:322-324 | a new point: the full image of the point, with z = 0 |
| AffineTransforms.CompApplyAffineTransform | engine/affine_transform.go:326-332 | a new point: the full image of `(x, y)` |
| AffineTransforms.CompApplyAffineTransformTo | engine/affine_transform.go:334-339 | `out` gets the full image of `(x, y)` and keeps its z |
| AffineTransforms.AffineTransformTranslate | engine/affine_transform.go:496-504 | `out` becomes `t` with the translation concatenated, even when `out` is `t` |
| AffineTransforms.AffineTransformScale | engine/affine_transform.go:506-514 | `out` becomes `t` with the scale concatenated, even when `out` is `t` |
| AffineTransforms.AffineTransformRotate | engine/affine_transform.go:533-554 | `out` becomes `t` with the rotation concatenated, even when `out` is `t` |
| AffineTransforms.AffineTransformMultiply | engine/affine_transform.go:556-569 | `out` becomes `t1 . t2`, whichever operand it is |
| AffineTransforms.AffineTransformMultiplyTo | engine/affine_transform.go:571-587 | `tB` becomes `tA . tB`, including when `tA` is `tB` |
| AffineTransforms.AffineTransformMultiplyFrom | engine/affine_transform.go:589-608 | `tA` becomes `tA . tB`, including when `tB` is `tA` |
| AffineTransforms.AffineTransformEqualToTransform | engine/affine_transform.go:611-613 | true exactly when all six coefficients are equal |
| AffineTransforms.AffineTransformInvert | engine/affine_transform.go:615-627 | `out` becomes the inverse of a non-singular `t`, including when `out` is `t` |
| AffineTransforms.AffineTransformInvertTo | engine/affine_transform.go:632-641 | a distinct `to` becomes the inverse and `t` is unchanged; inverting `t` into itself gives `InvertedInPlace` |
| Pools.Pool.constructor | engine/pools.go:11-15 | a new pool is empty before its `Add` |
| Pools.Pool.Len | engine/pools.go:42-44 | the length of the slice |
| Pools.Pool.Push | engine/pools.go:26-28 | appends at the back |
| Pools.Pool.Pop | engine/pools.go:31-35 | needs a non-empty pool; returns the front element and leaves the rest (FIFO) |
| Pools.Pool.IsEmpty | engine/pools.go:38-40 | true exactly when the length is 0 |
| Pools.PopThenPush | engine/pools.go:26-35 | `Pop` then `Push` of the same element keeps the length and moves the front element to the back |
| Pools.AddTransforms | engine/pools.go:18-23 | `count` fresh, distinct identity transforms are appended (none for a negative count), and the old elements stay |
| Pools.NewAffineTransformPool | engine/pools.go:11-23 | exactly `count` distinct fresh identity transforms |
| Pools.AddVectors | engine/pools.go:61-66 | `count` zero vectors are appended |
| Pools.NewVectorPool | engine/pools.go:54-66 | exactly `count` zero vectors |
| RenderContexts.Pushed | engine/render_context.go:49-55 | `Save` on the abstract frame: the current value is pushed and stays current, and the pool is one smaller |
| RenderContexts.Popped | engine/render_context.go:61-67 | `Restore` on the abstract frame: the top value becomes current and leaves the stack |
| RenderContexts.PoppedUndoesPushed | engine/render_context.go:49-67 | a `Restore` after a `Save` brings back the current value, the stack and the pool size, whatever happened to the current value in between |
| RenderContexts.OwnedAfterSave | engine/render_context.go:49-55 | after `Save` the pool copies and the stacked copies are still distinct slots, none of them the current transform, so a save never aliases a saved state |
| RenderContexts.OwnedAfterRestore | engine/render_context.go:61-67 | after `Restore` the copy returned to the pool is distinct from every other slot and from the current transform |
| RenderContexts.RenderContext.constructor | engine/render_context.go:22-35 | `NewRenderContext`: identity current transform, an empty stack, 100 zero scratch points |
| RenderContexts.RenderContext.Set | engine/render_context.go:37-39 | the current transform becomes `at` itself (an alias, not a copy) |
| RenderContexts.RenderContext.Save | engine/render_context.go:49-55 | the front pool copy takes the current value and goes on top of the stack; the current transform is unchanged |
| RenderContexts.RenderContext.Transform | engine/render_context.go:57-59 | the current value becomes `at . current`; a distinct `at` is unchanged |
| RenderContexts.RenderContext.Restore | engine/render_context.go:61-67 | needs a non-empty stack; current takes the top's value and the copy goes to the back of the pool |
| RenderContexts.RenderContext.DrawPolygon | engine/render_context.go:69-86 | scratch point `i` becomes vertex `i` under the current transform for `i < \|vertices\|`; the other points, the current transform and the stack are untouched; one fill is sent, of the transformed vertices, or of the stale first scratch point when there are none |
| Nodes.SkipsAreExact | engine/node.go:184-190 | skipping `Rotate` for rotation 0 and `Scale` for the scale (1, 1) gives the same matrix as applying them |
| Nodes.LocalTransformMaps | engine/node.go:179-194 | the rebuilt local transform maps p to translate(rotate(scale(p))) |
| Nodes.RemoveFirst | engine/group_node.go:33-42 | removal shrinks the list by one when `n` is present, and is a no-op when it is absent |
| Nodes.RemoveFirstAt | engine/group_node.go:33-42 | removal at the first occurrence `j` splices the list around `j`, keeping the other children in order |
| Nodes.RemoveFirstMultiset | engine/group_node.go:33-42 | removal takes out exactly one copy of `n` and nothing else |
| Nodes.Node.Initialize | engine/node.go:56-66 | dirty, visible, at the origin, scale (1, 1), no rotation, white, identity transform |
| Nodes.Node.SetColor | engine/node.go:68-70 | only the colour changes; dirty is left as it was |
| Nodes.Node.Position | engine/node.go:72-74 | the position |
| Nodes.Node.SetPosition | engine/node.go:76-79 | x and y of the position are set and the node is dirty |
| Nodes.Node.SetPositionBy2Comp | engine/node.go:81-84 | x and y of the position are set and the node is dirty |
| Nodes.Node.ScaleAsWritten | engine/node.go:86-88 | `Scale()` as written returns the position |
| Nodes.Node.Scale | engine/node.go:86-88 | `Scale()` as intended returns the scale |
| Nodes.Node.SetScale | engine/node.go:90-93 | x and y of the scale are set and the node is dirty |
| Nodes.Node.SetScaleUniform | engine/node.go:95-98 | the scale is multiplied by `s`, not set to `(s, s)`, and the node is dirty |
| Nodes.Node.Rotation | engine/node.go:100-102 | the rotation |
| Nodes.Node.SetRotation | engine/node.go:105-108 | the rotation is set and the node is dirty |
| Nodes.Node.SetRotationByDegree | engine/node.go:111-114 | the rotation becomes `angle * DegreeToRadians` and the node is dirty |
| Nodes.Node.Name | engine/node.go:116-118 | the name |
| Nodes.Node.SetName | engine/node.go:120-122 | only the name changes |
| Nodes.Node.SetVisible | engine/node.go:124-126 | only visibility changes, to true |
| Nodes.Node.SetInvisible | engine/node.go:128-130 | only visibility changes, to false |
| Nodes.Node.IsVisible | engine/node.go:132-134 | the visibility flag |
| Nodes.Node.CalcTransform | engine/node.go:173-197 | returns the cached transform, rebuilt from position, rotation and scale when dirty (kept when clean); dirty becomes false and nothing else changes; afterwards the cache invariant holds exactly when the node was dirty or already kept it, and under the invariant the result is the transform of the node's fields |
| Nodes.CachedIsLocal | engine/node.go:173-197 | under the cache invariant (a clean node's cache is the transform of its fields), the transform calcTransform returns is the transform of the fields, clean or dirty |
| Nodes.Node.AddChild | engine/group_node.go:29-31 | appends to the child list; the earlier children are unchanged |
| Nodes.Node.Find | engine/group_node.go:44-53 | the lowest index holding `n` itself, and `n`; `(0, nil)` when `n` is absent |
| Nodes.Node.Remove | engine/group_node.go:33-42 | the child list loses its first occurrence of `n` (the shifting loop is proved against `RemoveFirst`) |
| Nodes.Node.Draw | engine/node.go:263-265 | one fill of the corners under the current transform in the node's colour |
| Nodes.Node.TransformContext | engine/node.go:158 | the context's current value becomes `local . current`, the cache holds `local`, and the node is clean; the cache invariant holds afterwards exactly when the node was dirty or already kept it |
| Nodes.Node.Render | engine/node.go:145-167 | invisible: nothing happens; visible: push, the corners under `local . current`, pop, and the context's current value, stack and pool end as they started; the cache invariant is kept |
| Nodes.Rebuild | engine/node.go:179-194 | the cached transform becomes `LocalTransform` of the node's fields |
| Nodes.ScaleAsWrittenOnNewNode | engine/node.go:86-88 | on a new node, `Scale()` as written gives (0, 0) where the scale is (1, 1) |
| Nodes.CalcTransformTwice | engine/node.go:173-197 | two `calcTransform` calls with nothing in between give identical coefficients |
| Nodes.NewGroupNode | engine/group_node.go:17-27 | a fresh initialised group with its parent; with autoAdd it becomes the parent's last child, and otherwise the parent is unchanged |
| Nodes.NewRectangleNode | engine/node.go:218-249 | a fresh initialised rectangle with the centred or unit-square corners; with autoAdd it becomes the parent's last child |
| Nodes.CenteredIsShifted | engine/node.go:234-244 | the centred corners are the unit-square corners moved by (-0.5, -0.5) |
| Scenes.ChildrenDepth | engine/group_node.go:66-86 | bounds the nesting depth of every child, which is the number of pool copies rendering needs at once |
| Scenes.Enter | engine/node.go:150-158 | `Save` then `Transform`: the frame is pushed and the current value becomes `local . current` |
| Scenes.RenderScene | engine/group_node.go:66-86 | rendering a tree sends exactly `Trace`, and the context's current value, stack and pool size end as they started |
| Scenes.RenderRect | engine/node.go:254-265 | a visible rectangle sends push, its corners under `local . current`, pop |
| Scenes.RenderGroup | engine/group_node.go:66-86 | a visible group sends push, its children's calls under `local . current`, pop |
| Scenes.RenderChildren | engine/group_node.go:77-80 | the children are rendered in insertion order, each under the same current value |
| Scenes.RenderChild | engine/group_node.go:77-80 | child `i`'s calls follow those of children `0..i-1` |
| Scenes.InvisibleDrawsNothing | engine/group_node.go:67-69 | an invisible node, group or rectangle, sends nothing |
| Scenes.LastChildDrawnLast | engine/group_node.go:66-86 | a group's calls end with its last-added child's calls and the group's pop, so that child is drawn on top |
| Scenes.FillsAppend | engine/group_node.go:66-86 | fills counted over concatenated calls add up |
| Scenes.FillsAreShown | engine/group_node.go:66-86 | every visible rectangle reachable through visible groups is filled exactly once |
| Scenes.ChildrenFillsAreShown | engine/group_node.go:77-80 | the same for a list of children |
| Scenes.NestedCornersCompose | engine/group_node.go:66-86 | a rectangle's corner is drawn mapped by the rectangle's local transform, then the group's, then the context's |
| Scenes.TranslationsAdd | engine/affine_transform.go:245-252 | two translations compose into the translation by their sum |
| Scenes.NestedTranslations | engine/group_node.go:66-86 | nested translations add up: for any three offsets, a unit-square leaf in two translated groups draws its origin corner at their sum |
| Tweens.LinearEasing | engine/tweens.go:8-10 | the tween is at its start value at time 0, at start plus delta when the duration has elapsed, and constant when the delta is 0 |
| Tweens.EasingStartsAtStart | engine/tweens.go:8-10 | at time 0 the tween is at its start value |
| Tweens.EasingEndsAtEnd | engine/tweens.go:8-10 | at time `d` the tween is at start plus delta |
| Tweens.EasingIsAffine | engine/tweens.go:8-10 | equal time steps give equal value steps, `c / d` per unit |
| Tweens.EasingMonotone | engine/tweens.go:8-10 | with `c >= 0` and `d > 0` the tween never decreases |
| Tweens.EasingBetweenEnds | engine/tweens.go:8-10 | within `[0, d]` the value lies between the two ends |
| Particles.Particle.constructor | engine/particle.go:24-31 | `NewParticle`: duration 1, at rest at the origin, not alive |
| Particles.Particle.Update | engine/particle.go:34-60 | the particle becomes `Stepped` of its old state |
| Particles.Particle.Assign | engine/particle_system.go:63 | every field is overwritten: what the foreign callback may do |
| Particles.DeadStaysPut | engine/particle.go:35-37 | `Update` on a dead particle changes nothing |
| Particles.LiveStep | engine/particle.go:48-59 | live: the age grows by `dt`, the position by the velocity (not scaled by `dt`), alpha comes from StartColor, and the particle stays alive exactly while the new age is below Duration |
| Particles.ToByteOfByte | engine/particle.go:40 | a byte converted to float and back is itself |
| Particles.FirstUpdateShowsStartColor | engine/particle.go:39-46 | the colour is eased at the age before the increment, so the first `Update` after a trigger renders StartColor |
| Particles.ChannelBetween | engine/particle.go:39-46 | within the lifetime each eased channel lies between its start and end values |
| Particles.LifetimeBySteps | engine/particle.go:34-60 | after n Updates from age 0, the particle is alive exactly while n steps of `dt` stay below Duration; while alive its age is those steps and it has moved by n velocities |
| Particles.ElapsedIsProduct | engine/particle.go:50 | n steps of `dt` add up to `n * dt` |
| Particles.TravelledIsScaled | engine/particle.go:53 | n velocities add up to the velocity scaled by n |
| Particles.Lifetime | engine/particle.go:34-60 | the lifetime with products: alive exactly while `n * dt` is below Duration, at age `n * dt` and `n * velocity` from the start |
| ParticleSystems.FirstDeadFrom | engine/particle_system.go:58-59 | the first dead slot at or after `i`, or -1 when all of them are alive |
| ParticleSystems.LiveSlotsMembers | engine/particle_system.go:49-53 | the slots handed to the renderer are exactly the live ones |
| ParticleSystems.LiveSlotsIncreasing | engine/particle_system.go:49-53 | they are handed over in increasing order, none twice, one per live particle |
| ParticleSystems.LiveCountAfterRevive | engine/particle_system.go:57-67 | reviving one dead slot adds one live particle, or none when the callback leaves it dead |
| ParticleSystems.ParticleSystem.constructor | engine/particle_system.go:22-28 | `count` distinct new particles and the given triggerer |
| ParticleSystems.ParticleSystem.Initialize | engine/particle_system.go:31-36 | exactly `count` distinct fresh particles, all in the `NewParticle` state (not alive) |
| ParticleSystems.ParticleSystem.Update | engine/particle_system.go:39-45 | every particle becomes `Stepped` of its old state, so live ones advance and dead ones are untouched |
| ParticleSystems.ParticleSystem.Render | engine/particle_system.go:48-54 | the renderer gets the live slots, in index order |
| ParticleSystems.ParticleSystem.TriggerParticle | engine/particle_system.go:57-67 | only the lowest dead slot is revived (alive, RenderColor = StartColor, age 0) and then configured by the triggerer; every other slot is untouched, nothing changes when all are alive, and the live count rises by at most one |
| ParticleSystems.Revive | engine/particle_system.go:60-63 | one revived particle: alive, StartColor rendered, age 0, then the callback's result |
| SimpleNode.KeyState.constructor | _examples/simple_node/run.go:49 | `new(keyState)` starts with the previous reading 0 |
| SimpleNode.KeyState.IsKeyUp | _examples/simple_node/run.go:124-132 | true exactly when the previous reading was 0 and this one is 1; the reading is always remembered |
| SimpleNode.Answers | _examples/simple_node/run.go:124-132 | successive `isKeyUp` calls give one answer per reading |
| SimpleNode.AnswersAreEdges | _examples/simple_node/run.go:124-132 | call `i` answers true exactly when reading `i` is 1 and the reading before it is 0 |
| SimpleNode.HeldKeyReportsOnce | _examples/simple_node/run.go:126-130 | a key held at 1 reports true only on the first call, and only after a 0 |
| SimpleNode.ReleasedKeyNeverReports | _examples/simple_node/run.go:126 | a reading of 0 never answers true |
| SimpleNode.Game.constructor | _examples/simple_node/run.go:47-55 | `newGame`: a fresh key state, then `build2`; the demo tree hangs under the root with angle 0 and every node dirty |
| SimpleNode.Game.Build2 | _examples/simple_node/run.go:58-79 | the tree root -> [wgroup], wgroup -> [white, ogroup], ogroup -> [orange], with wgroup at (150, 150), white's scale (25, 25), orange at (50, 0) with scale (15, 15) and colour (255, 127, 0, 255), nothing turned, every node dirty; the root only gains wgroup at its end |
| SimpleNode.MakeWhiteGroup | _examples/simple_node/run.go:61-63 | a new group at (150, 150) appended to the root |
| SimpleNode.MakeWhiteRect | _examples/simple_node/run.go:65-67 | a new centred white rectangle with scale (25, 25) appended to wgroup |
| SimpleNode.MakeOrangeGroup | _examples/simple_node/run.go:69-70 | a new group at the origin appended to wgroup |
| SimpleNode.MakeOrangeRect | _examples/simple_node/run.go:72-76 | a new centred orange rectangle at (50, 0) with scale (15, 15) appended to ogroup |
| SimpleNode.Game.Update | _examples/simple_node/run.go:104-112 | white turns to `-angle / 4` degrees and ogroup to `angle` degrees, both dirty; the angle grows by 2; the key is read and its answer unused; the tree is otherwise unchanged and keeps the cache invariant |
| SimpleNode.BuiltIsCached | _examples/simple_node/run.go:58-79 | the tree build2 leaves, every node dirty, keeps the cache invariant for any sine and cosine |
| SimpleNode.SnapshotIsRendered | engine/node.go:173-197 | under the cache invariant the snapshot holds exactly the transforms calcTransform returns for the four nodes, so it is the tree a frame renders |
| SimpleNode.SnapshotIsDemo | _examples/simple_node/run.go:58-79 | the snapshot of the built tree, with white turned by r1 and ogroup by r2 (radians), is `DemoAt(r1, r2)` |
| SimpleNode.DemoTrace | engine/group_node.go:66-86 | the demo tree sends ten calls: white filled third under `white . wgroup`, orange filled seventh under `orange . ogroup . wgroup` |
| SimpleNode.CentreOfDiagonal | engine/node.go:234-238 | diagonal corners 0 and 2 of a centred rectangle meet at the image of the origin |
| SimpleNode.OriginToPosition | engine/node.go:179-194 | a node's local transform takes the origin to the node's position, whatever its rotation and scale |
| SimpleNode.UnturnedIsTranslation | engine/node.go:179-194 | an unturned, unscaled node's local transform is the translation by its position |
| SimpleNode.TurnedIsRotation | engine/node.go:179-194 | an unscaled node at the origin turned by `th` has the rotation matrix `(c, s, -s, c)` as its local transform |
| SimpleNode.DemoAtTurned | _examples/simple_node/run.go:58-79 | in the demo tree, wgroup translates to (150, 150), white keeps its origin, ogroup is the rotation by the group's turn, and orange takes its origin to (50, 0) |
| SimpleNode.WhiteCentre | _examples/simple_node/run.go:61-67 | the white rectangle is centred on (150, 150) however it is turned |
| SimpleNode.Orbit | _examples/simple_node/run.go:57-79 | the orange rectangle orbits the white one: in a tree of the demo's shape and local transforms its fill is centred 50 units from the white fill's centre, in the direction ogroup is turned to; the game's frames reach it through the cache invariant, `SnapshotIsRendered`, `SnapshotIsDemo` and `DemoAtTurned` |

## Left out

- Floating point: every coefficient, time and position is a real. Rounding, NaN and infinities are not modelled.
- `math.Sin`, `math.Cos` and `math.Tan` are not defined. `Rotate`, `SetToRotate` and `AffineTransformRotate` take sin and cos as values, `Skew` takes the two tangents, and nodes take a `Trig` pair of which only `sin 0 = 0`, `cos 0 = 1` is used.
- Nodes.LocalTransform: it is built with the `Trig` pair, so a node's rotation is not tied to the real sine and cosine. `SimpleNode.Orbit` therefore takes `s * s + c * c = 1` as a premise.
- SimpleNode.Orbit: it is stated over any four local transforms with the demo's properties. Its link to a frame of the game is a chain of separate lemmas and contracts. `SimpleNode.Game.Build2` leaves every node dirty, so `SimpleNode.BuiltIsCached` gives the cache invariant. `SimpleNode.Game.Update`, `Nodes.Node.CalcTransform` and `Nodes.Node.Render` keep it. `SimpleNode.SnapshotIsRendered`, `SimpleNode.SnapshotIsDemo` and `SimpleNode.DemoAtTurned` then take the rendered transforms to Orbit's premises. No single lemma states the orbit for a given frame.
- The render walk over the live object graph is modelled node by node (`Nodes.Node.Render`); a whole tree is walked by `Scenes.RenderScene` over a `Scene` snapshot of each node's local transform. The snapshot does not capture a setter run on a node by one of its own children mid-walk, which the code never does.
- The `gg.Context` drawing surface is a foreign library: its `Push`, `Pop` and the `SetColor`/`MoveTo`/`LineTo`/`ClosePath`/`Fill` sequence are recorded as `PushState`, `PopState` and one `Fill(path, colour)`.
- `Stack`/`NewStack`: their Go definitions lie outside the engine files modelled. The saved-copy stack is a `seq` whose top is last, and the capacity of 100 given at engine/render_context.go:24 is not modelled.
- `Vector3` is a value, not a pointer. In particular, a particle's `Position` and `Velocity` and a rectangle's corners are values, and pointer sharing between them is not modelled.
- `Set2Components`, `ScaleBy` and `Add` of `Vector3`: their Go definitions lie outside the engine files modelled. engine.dfy defines them as overwriting x and y, multiplying every component, and adding component-wise.
- Particles.ToByte: Go's float-to-`uint8` conversion is exact in (-1, 256) and platform-defined outside it. The model gives 0 outside [0, 256), and the eased channels never leave that range while the particle lives (`Particles.ChannelBetween`).
- Particles.Channel: with a zero duration `LinearEasing` divides by zero. Go then converts an infinity or NaN to a platform-defined byte, which the model gives as 0.
- Tweens.LinearEasing: it requires a non-zero duration, the division the code performs. `Lerp` (`math.Round`) is left out.
- ParticleSystems.ParticleSystem.TriggerParticle: the triggerer is given the system too and could change other slots. The model's triggerer is a function of the revived particle's state, changing only that particle.
- ParticleSystems.ParticleSystem.Render: the renderer's drawing into the pixel buffer is not modelled. The method returns the slots it hands over, in call order.
- `Update` of `BaseNode`, `RectangleNode` and `GroupNode` (engine/node.go:137-142, 251-252; engine/group_node.go:55-64): the bodies are empty, and a group's loop only calls its children's empty `Update`. There is nothing to model.
- GroupNode's own `Draw` (engine/group_node.go:88-94) is empty; it adds nothing to a group's trace.
- `AsTranslate` and `AsScale` take a receiver they never read, and the methods are modelled the same way.
- `String()`, the unused `Matrix4`, the commented-out code, `build1`, `Render` of the demo game, `DrawRect` (engine/rendererings.go), the SDL window, event loop, font overlay and keyboard array are left out. They are I/O or unused. The T key's reading is a parameter of `SimpleNode.Game.Update`.
- The engine's root group and the global `AffinePool` are parameters, not package-level variables.
- Nodes.NewGroupNode: it requires a parent when autoAdd is set. With a nil parent and autoAdd, Go's `parent.Add(g)` (engine/group_node.go:23-25) panics on the nil interface; the panic is not modelled.
- Nodes.NewRectangleNode: it requires a parent when autoAdd is set. With a nil parent and autoAdd, Go's `g.parent.Add(g)` (engine/node.go:224-226) panics; the panic is not modelled.
- ParticleSystems.ParticleSystem.constructor: it requires a non-negative count. With a negative count, Go's `make` in `Initialize` (engine/particle_system.go:32) panics; the panic is not modelled.
- ParticleSystems.ParticleSystem.Initialize: it requires a non-negative count, for the same `make` panic (engine/particle_system.go:32).
- RenderContexts.RenderContext.Set: it requires that `at` is not one of the pool's or the stack's copies. Go accepts any transform. Setting a pool copy as current would let a later `Save` or `Restore` overwrite the current transform through the alias, which breaks the ownership invariant the model keeps, so that aliasing is not modelled. Go's `Set` can also make a node's own cached transform the current one; `Nodes.Node.TransformContext` and `Nodes.Node.Render` exclude that state (`transform != context.context`), because their `Restore` would then copy the saved transform over the node's cache through `SetWithAT` (engine/render_context.go:63). The engine never calls `Set`.
- Pools.Pool.Pop: it requires a non-empty pool. On an empty pool Go's `(*q)[0]` (engine/pools.go:32) panics with an index out of range; the panic is not modelled.
- Pools.PopThenPush: it requires a non-empty pool, for the same index panic in `Pop` (engine/pools.go:32).
- RenderContexts.RenderContext.Save: it requires a non-empty `AffinePool`. On an empty pool `AffinePool.Pop()` (engine/render_context.go:52) panics with an index out of range; the panic is not modelled.
- RenderContexts.RenderContext.Restore: it requires a non-empty saved-copy stack. On an empty stack Go's `contextState.Pop().(*AffineTransform)` (engine/render_context.go:62) panics: `Stack` lies outside the engine files modelled, and either its pop fails itself or it yields no transform, on which the `.(*AffineTransform)` assertion panics. The panic is not modelled.
- RenderContexts.RenderContext.DrawPolygon: it requires at most `MaxTransformedVertices` (100) vertices. With more, `c.tPoints[i]` (engine/render_context.go:72) indexes past the 100-element slice and panics; the panic is not modelled.
- Scenes.Enter: it requires a non-empty `AffinePool`, for the `Save` panic at engine/render_context.go:52; the panic is not modelled.
- Scenes.RenderRect: it requires a non-empty `AffinePool`, for the `Save` panic at engine/render_context.go:52; the panic is not modelled.
- Scenes.RenderScene: it requires the tree's nesting depth to be at most the number of pooled copies. Every nested group and rectangle calls `Save` before its parent's `Restore`, so a tree deeper than the 100 transforms of `AffinePool` (engine/engine.go:46) empties the pool and panics at engine/render_context.go:52; the panic is not modelled.
- Scenes.RenderGroup: it requires the same depth bound as `Scenes.RenderScene`, for the same `Save` panic (engine/render_context.go:52).
- Scenes.RenderChildren: it requires the same depth bound as `Scenes.RenderScene`, for the same `Save` panic (engine/render_context.go:52).
- Scenes.RenderChild: it requires the same depth bound as `Scenes.RenderScene`, for the same `Save` panic (engine/render_context.go:52).
- Nodes.Node.TransformContext: it requires that the node's cached transform is not the context's current one, a state only Go's `Set` can reach; see the `RenderContexts.RenderContext.Set` line above.
- Nodes.Node.Render: it requires a non-empty `AffinePool`, for the `Save` panic at engine/render_context.go:52, and at most 100 vertices, for the `tPoints` panic at engine/render_context.go:72. It also requires at least one vertex; every rectangle is built with four corners (engine/node.go:228-232), so no reachable node is excluded.
- Nodes.Node.AddChild, Nodes.Node.Find and Nodes.Node.Remove require a group receiver, and the node constructors a group parent: in Go they are methods of `GroupNode` and the parent has type `IGroupNode`.
- Node names are set by `SimpleNode.Game.Build2`'s steps but are not part of `SimpleNode.Game.Valid`, since nothing reads them.
- Posed states white's rotation as `-a / 4 * DegreeToRadians`, as `SetRotationByDegree` computes it. The drawing lemmas are stated over radians.

Where comments and code disagree, the model follows the code:
- `NewParticle`'s comment says the particle is white; the code leaves its colours at Go's zero value.
- The comment at engine/group_node.go:5 says the last node added is rendered underneath, but the code draws it last, on top (`Scenes.LastChildDrawnLast`).
- `PreMultiply` buffers only the receiver, and `AffineTransformInvertTo` buffers nothing, so neither computes its result when its two operands are the same object. Both are stated in the model.

## Findings

| source | as written | input that shows it | evidently intended | confidence | as-written member | corrected member |
|---|---|---|---|---|---|---|
| engine/node.go:86-88 | `Scale()` returns `n.position` | a new node: `Scale()` gives (0, 0) although its scale is (1, 1) | `Scale()` returns `n.scale` | high; not executed | Nodes.ScaleAsWrittenOnNewNode | Nodes.Node.Scale |
| engine/tests/affine_test.go:10-20 | `Test_Translate` calls `at.ApplyToVector(v)` with one argument, while `ApplyToVector(point, out)` at engine/affine_transform.go:64 takes two, so the test package does not compile; the method it names applies the linear part only | as written, no input: the call does not build; read as the in-place `ApplyToVector(v, v)`, `SetToTranslate(2, 0)` on (0, 0) gives (0, 0), so `v.X == 2` fails | `at.ApplyTo(v, v)`, which adds the translation and gives (2, 0) | high that it does not build; not executed | AffineAlgebra.TranslateTestAsWritten | AffineAlgebra.TranslateTest |
