# Sollumz MLO gizmos, modelled in Dafny

This project models the viewport overlays ("gizmos") that Sollumz draws for an
interior-layout (MLO) archetype in Blender: a wireframe box for each room, a
two-triangle surface and a direction arrow for each portal, the visibility
gate that decides whether any of them is drawn, and the selection-dependent
colour and alpha of each overlay. Everything comes from `ytyp/gizmos.py`.

Modules:

- `Wrappers` (`wrappers.dfy`): `Option`.
- `Geometry` (`geometry.dfy`): exact-real 3D vectors, cross and dot products, an opaque world matrix.
- `Shapes` (`shapes.dfy`): `RoomGizmo.get_verts` and `PortalGizmo.get_verts`,
  the centroid and unnormalised normal used by `PortalNormalGizmo.draw`, and
  what is proved about them (box edges, vector areas, centroid bounds).
- `Axes` (`axes.dfy`): the six arrow axes and the exact-equality classifier.
- `Scene` (`scene.dfy`): the per-frame snapshot (active object, selected
  archetype with its type tag, asset, rooms, portals and indices, the ancestor
  search's answer, the two scene toggles), `can_draw_gizmos` and the two `poll`s.
- `Gizmos` (`gizmos.dfy`): the three `draw` methods as functions returning
  colour, alpha and an optional draw command; the two groups as classes whose
  `DrawPrepare` clears a `seq` field and refills it in a loop; and whole-frame
  lemmas that combine rebuild and draw.

An overlay instance is a value of kind and link; its link to a room or a portal
is an index into the archetype's sequence, so `room == selected_room` becomes
index equality with `room_index`. `get_selected_portal` (not part of this model)
is assumed to return the portal at `portal_index` when that index is in range
and nothing otherwise; under that assumption an overlay that was never linked
compares equal to an absent selection (`UnlinkedPortalGizmoHighlighted`).

The room line list has 26 points (13 segments). Its seventh segment (lines
49-50) joins the corner (max.x, min.y, max.z) to itself; the other 12 are the
12 box edges, each once.

## Model

| member | source | states |
|---|---|---|
| `Shapes.RoomVerts` | ytyp/gizmos.py:29-69 | the room line list has 26 points (an even count, 13 segments) and every point is a box corner: each coordinate is that of `bbmin` or of `bbmax`, never a blend |
| `Shapes.RoomSegmentIsEdge` | ytyp/gizmos.py:31-68 | every segment other than the seventh joins the two ends of a box edge (in either order) |
| `Shapes.RoomEdgesCovered` | ytyp/gizmos.py:31-68 | each of the 12 box edges (4 along x, 4 along y, 4 along z) is one of the 12 proper segments |
| `Shapes.SegmentsMatchEdgesOneToOne` | ytyp/gizmos.py:31-68 | the proper segments and the labelled box edges correspond one to one, so no labelled edge is matched by two segments |
| `Shapes.RoomDegenerateSegmentEnds` | ytyp/gizmos.py:49-50 | both ends of the seventh segment are the corner (max.x, min.y, max.z) |
| `Shapes.RoomOnlyDegenerateSegment` | ytyp/gizmos.py:31-68 | for a box with extent on every axis, a segment has zero length if and only if it is the seventh |
| `Shapes.PortalVerts` | ytyp/gizmos.py:130-139 | the portal triangle list has 6 points, holds every one of the 4 corners and nothing else; the first triangle holds corner1, corner2 and corner4, the second corner3, corner4 and corner2, so both share the corner2-corner4 diagonal |
| `Shapes.PortalTrianglesCoverQuad` | ytyp/gizmos.py:130-139 | the signed vector areas of the two triangles add up to the signed vector area of the quad taken around its perimeter |
| `Shapes.CentroidOfQuad` | ytyp/gizmos.py:187-191 | `Centroid` (the per-coordinate mean the arrow is placed at) of four corners is their coordinate-wise sum divided by 4 |
| `Shapes.CentroidInBox` | ytyp/gizmos.py:187-191 | `Centroid` of points inside a box lies inside that box |
| `Shapes.RawNormalPerpendicular` | ytyp/gizmos.py:192-193 | the unnormalised normal `RawNormal` is twice the vector area of triangle corner1 corner2 corner3 and is perpendicular to both edges from corner1 |
| `Shapes.PortalNormalOfOddNormalize` | ytyp/gizmos.py:192-193 | `PortalNormal`, the normal the arrow is classified by (cross product of (corner3 - corner1) and (corner2 - corner1), normalised, then negated), is the normalised `RawNormal` whenever the normalisation commutes with negation, as a true normalisation does |
| `Shapes.RawNormalOfLevelPortal` | ytyp/gizmos.py:192-193 | a portal in a horizontal plane has a vertical unnormalised normal |
| `Axes.ClassifyAxis` | ytyp/gizmos.py:195-205 | a label other than POS_X is returned only for that label's exact unit vector; POS_X is returned exactly when the vector is none of the five other unit vectors, (1, 0, 0) included |
| `Axes.ClassifyUnitVector` | ytyp/gizmos.py:195-205 | each of the six unit vectors is classified as its own label |
| `Scene.CanDrawGizmos` | ytyp/gizmos.py:8-18 | false without an active object or a selected archetype; otherwise true exactly when the archetype has an asset, is of the MLO type, the asset is visible, and the active object is the asset or the ancestor search finds the asset |
| `Scene.GateOpensForAssetItself` | ytyp/gizmos.py:16-17 | the active object being the visible asset of an MLO archetype opens the gate whatever the ancestor search says |
| `Scene.GateClosedForUnrelatedObject` | ytyp/gizmos.py:8-18 | an active object that is neither the asset nor under it closes the gate and both groups |
| `Scene.RoomGroupPoll` | ytyp/gizmos.py:101-108 | false when the room toggle is off; otherwise the gate and `room_index < len(rooms)` |
| `Scene.PortalGroupPoll` | ytyp/gizmos.py:218-225 | false when the portal toggle is off; otherwise the gate and `portal_index < len(portals)` |
| `Scene.OutOfRangePortalDisablesGroup` | ytyp/gizmos.py:218-225 | one portal with portal index 5 disables the portal group instead of failing |
| `Gizmos.DrawRoomGizmo` | ytyp/gizmos.py:71-90 | colour (0.62, 0.76, 2.0) and alpha 0.9 when linked to the selected room, otherwise (0.31, 0.38, 1.0) and 0.7; a line shape with the room's wireframe and the asset's world matrix is submitted exactly when the asset and the linked room exist |
| `Gizmos.DrawPortalGizmo` | ytyp/gizmos.py:141-160 | colour (0.675, 1.47, 0.825) and alpha 0.7 when its portal is selected, otherwise (0.45, 0.98, 0.55) and 0.5; a triangle shape with the portal's two triangles is submitted exactly when the asset and the linked portal exist |
| `Gizmos.DrawPortalNormalGizmo` | ytyp/gizmos.py:170-207 | colour (0, 0.6, 1); alpha 0.3 when selected and 0 otherwise; an arrow is submitted exactly when selected and the asset and the portal exist, placed at the portal's centroid with scale 0.3 in the asset's world matrix and pointing along the classified normal, which is the cross product of (corner3 - corner1) and (corner2 - corner1), normalised and then negated |
| `Gizmos.ArrowAtPortalCentre` | ytyp/gizmos.py:184-191 | a submitted arrow belongs to the in-range selected portal and stands at the mean of its four corners |
| `Gizmos.UnlinkedPortalGizmoHighlighted` | ytyp/gizmos.py:141-182 | with the selection out of range, never-linked portal overlays take the selected alpha (0.7 and 0.3) but submit nothing |
| `Gizmos.RoomRebuild` | ytyp/gizmos.py:116-119 | a rebuilt room group has one instance per room, the i-th a room overlay linked to room i |
| `Gizmos.PortalRebuild` | ytyp/gizmos.py:235-239 | a rebuilt portal group has two instances per portal: position 2i a normal overlay and 2i+1 a surface overlay, both linked to portal i |
| `Gizmos.RoomGizmoGroup.DrawPrepare` | ytyp/gizmos.py:113-119 | after the clear and the loop the group holds exactly the room rebuild of the archetype, whatever it held before |
| `Gizmos.PortalGizmoGroup.DrawPrepare` | ytyp/gizmos.py:230-239 | after the clear and the loop the group holds exactly the portal rebuild of the archetype, whatever it held before |
| `Gizmos.RebuildTwice` | ytyp/gizmos.py:116-119 | rebuilding both groups twice leaves the same instances, in the same order with the same links, as rebuilding once |
| `Gizmos.RoomFrameHighlightsSelection` | ytyp/gizmos.py:77-119 | in a rebuilt room group of an archetype with an asset every overlay draws its wireframe and exactly the one linked to the selected room is highlighted |
| `Gizmos.PortalFrameHighlightsSelection` | ytyp/gizmos.py:141-239 | in a rebuilt portal group every surface overlay draws and exactly the selected one is highlighted, and only the selected portal's normal overlay draws an arrow |
| `Gizmos.TwoRoomFrame` | ytyp/gizmos.py:77-83 | two rooms with the first selected: two overlays, the first highlighted (0.62, 0.76, 2.0)/0.9, the second at the base (0.31, 0.38, 1.0)/0.7 |

## Left out

- Blender registration (`bl_idname`, `bl_options`, the `Gizmo`/`GizmoGroup` base classes, `setup`): host plumbing with no logic.
- The rendering calls (`new_custom_shape`, `draw_custom_shape`, `draw_preset_arrow`) are modelled only as the `DrawCommand` value an overlay submits; `use_draw_scale` and the host's hit-testing of the selectable portal surface are not modelled.
- The arrow's matrix product `matrix_world @ Translation(centroid) @ Diagonal(0.3)` is kept as the symbolic `ArrowPlacement` (world matrix, translation, scale); matrix arithmetic is not modelled.
- Gizmos.DrawPortalNormalGizmo: normalising the normal needs a square root over floats, so the normalisation is a function parameter; the classifier is proved on whatever vector it yields, and the float rounding that decides the exact-equality tests is not modelled.
- Colours, alphas and coordinates are exact reals: `0.31 * 2` and the other products are exact, and single-precision rounding is not modelled. `self.color * 2` is taken to be a scalar product of the colour vector.
- `find_parent` (`tools/blenderhelper`) is not part of this model; its answer is the `assetIsAncestor` field of the snapshot.
- `get_selected_archetype`, `get_selected_ytyp` and `get_selected_portal` live in the properties module, which is not part of this model: the archetype is a field of the snapshot, `get_selected_ytyp(...).selected_archetype` is taken to be the same archetype, and the selected portal is taken to be the portal at `portal_index` when that is in range and none otherwise (`Gizmos.SelectedPortal`).
- `room_index` and `portal_index` are modelled as non-negative; Python's negative indexing of `rooms[room_index]` is not modelled.
- Gizmos.DrawRoomGizmo: requires `room_index` in range, because the draw looks up `rooms[room_index]` without a guard and would raise otherwise; the host only draws the group after its poll has checked this.
- Object identity: rooms and portals are compared by identity in the source; the model compares indices, which is the same thing for the links a rebuild creates.
