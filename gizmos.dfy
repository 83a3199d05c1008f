/**
  The overlays themselves: what each kind of overlay draws in a frame (its
  colour, its alpha and the shape it submits, if any), and the two overlay
  groups, which rebuild their instances from the selected archetype every frame.
 */
module Gizmos {

  import opened Wrappers
  import opened Geometry
  import opened Shapes
  import opened Axes
  import opened Scene

  datatype Color = Color(r: real, g: real, b: real)

  function ScaleColor(c: Color, k: real): Color {
    Color(c.r * k, c.g * k, c.b * k)
  }

  datatype GizmoKind = RoomGizmo | PortalNormalGizmo | PortalGizmo

  /**
    An overlay instance: its kind and the room or portal it is linked to, as an
    index into the archetype's rooms or portals (None before it is linked).
   */
  datatype Gizmo = Gizmo(kind: GizmoKind, linked: Option<nat>)

  /** A fresh instance as the group creates it, not yet linked. */
  function NewGizmo(kind: GizmoKind): Gizmo {
    Gizmo(kind, None)
  }

  /** The arrow's transform: the asset's world matrix, then a translation, then a uniform scale. */
  datatype ArrowPlacement = ArrowPlacement(world: Matrix, translation: Vec3, scale: real)

  /** What an overlay hands to the host renderer. */
  datatype DrawCommand =
    | Lines(verts: seq<Vec3>, matrix: Matrix)
    | Tris(verts: seq<Vec3>, matrix: Matrix)
    | PresetArrow(placement: ArrowPlacement, axis: Axis)

  /** The colour and alpha an overlay is left with after drawing, and the shape it submitted. */
  datatype DrawResult = DrawResult(color: Color, alpha: real, command: Option<DrawCommand>)

  const RoomColor := Color(0.31, 0.38, 1.0)
  const RoomAlpha := 0.7
  const RoomSelectedAlpha := 0.9
  const RoomHighlight := 2.0

  const PortalColor := Color(0.45, 0.98, 0.55)
  const PortalAlpha := 0.5
  const PortalSelectedAlpha := 0.7
  const PortalHighlight := 1.5

  const PortalNormalColor := Color(0.0, 0.6, 1.0)
  const PortalNormalSelectedAlpha := 0.3
  const ArrowScale := 0.3

  // ---------------------------------------------------------------------------
  // Drawing one overlay

  /** The room a link designates, if the link is set and still in range. */
  function LinkedRoom(archetype: Archetype, linked: Option<nat>): Option<Room> {
    if linked.Some? && linked.value < |archetype.rooms| then Some(archetype.rooms[linked.value]) else None
  }

  /**
    A room overlay is highlighted (colour doubled, alpha 0.9) exactly when it is
    linked to the selected room, and submits the room's wireframe in the asset's
    world transform exactly when both the asset and the linked room exist.
    The selected room is looked up unguarded, so the selection must be in range.
   */
  function DrawRoomGizmo(archetype: Archetype, linked: Option<nat>): (d: DrawResult)
    requires archetype.roomIndex < |archetype.rooms|
    ensures var selected := linked == Some(archetype.roomIndex);
      d.color == (if selected then Color(0.62, 0.76, 2.0) else Color(0.31, 0.38, 1.0)) &&
      d.alpha == (if selected then 0.9 else 0.7)
    ensures d.command.Some? <==> archetype.asset.Some? && LinkedRoom(archetype, linked).Some?
    ensures d.command.Some? ==>
      var room := archetype.rooms[linked.value];
      d.command.value == Lines(RoomVerts(room.bbMin, room.bbMax), archetype.asset.value.world)
  {
    var selectedRoom := archetype.roomIndex;
    var room := LinkedRoom(archetype, linked);
    var color := RoomColor;
    var alpha := RoomAlpha;
    var (color, alpha) :=
      if linked == Some(selectedRoom) then (ScaleColor(color, RoomHighlight), RoomSelectedAlpha) else (color, alpha);
    var command :=
      if archetype.asset.Some? && room.Some? then
        Some(Lines(RoomVerts(room.value.bbMin, room.value.bbMax), archetype.asset.value.world))
      else None;
    DrawResult(color, alpha, command)
  }

  /** The selected portal, taken to be the portal at the portal index when that is in range. */
  function SelectedPortal(archetype: Archetype): Option<nat> {
    if archetype.portalIndex < |archetype.portals| then Some(archetype.portalIndex) else None
  }

  /** The portal a link designates, if the link is set and still in range. */
  function LinkedPortal(archetype: Archetype, linked: Option<nat>): Option<nat> {
    if linked.Some? && linked.value < |archetype.portals| then linked else None
  }

  /** A portal overlay counts as selected when its portal is the selected one (two absent portals compare equal). */
  predicate PortalSelected(archetype: Archetype, linked: Option<nat>) {
    SelectedPortal(archetype) == LinkedPortal(archetype, linked)
  }

  /**
    A portal overlay is highlighted (colour times 1.5, alpha 0.7) exactly when
    selected, and submits the portal's two triangles in the asset's world
    transform exactly when both the asset and the linked portal exist.
   */
  function DrawPortalGizmo(archetype: Archetype, linked: Option<nat>): (d: DrawResult)
    ensures var selected := PortalSelected(archetype, linked);
      d.color == (if selected then Color(0.675, 1.47, 0.825) else Color(0.45, 0.98, 0.55)) &&
      d.alpha == (if selected then 0.7 else 0.5)
    ensures d.command.Some? <==> archetype.asset.Some? && LinkedPortal(archetype, linked).Some?
    ensures d.command.Some? ==>
      d.command.value == Tris(PortalVerts(Corners(archetype.portals[linked.value])), archetype.asset.value.world)
  {
    var portal := LinkedPortal(archetype, linked);
    var asset := archetype.asset;
    var color := PortalColor;
    var alpha := PortalAlpha;
    var (color, alpha) :=
      if SelectedPortal(archetype) == portal then (ScaleColor(color, PortalHighlight), PortalSelectedAlpha) else (color, alpha);
    var command :=
      if portal.Some? && asset.Some? then
        Some(Tris(PortalVerts(Corners(archetype.portals[portal.value])), asset.value.world))
      else None;
    DrawResult(color, alpha, command)
  }

  /**
    A portal's normal-arrow overlay is always present but invisible (alpha 0)
    unless its portal is selected; then its alpha is 0.3 and, when the asset and
    the portal exist, it submits an arrow at the portal's centroid, scaled by
    0.3 and pointing along the snapped axis of the portal's normal.
    `normalize` stands for the host's vector normalisation.
   */
  function DrawPortalNormalGizmo(archetype: Archetype, linked: Option<nat>, normalize: Vec3 -> Vec3): (d: DrawResult)
    ensures d.color == Color(0.0, 0.6, 1.0)
    ensures d.alpha == if PortalSelected(archetype, linked) then 0.3 else 0.0
    ensures d.command.Some? <==>
      PortalSelected(archetype, linked) && archetype.asset.Some? && LinkedPortal(archetype, linked).Some?
    ensures d.command.Some? ==>
      var corners := Corners(archetype.portals[linked.value]);
      d.command.value == PresetArrow(
        ArrowPlacement(archetype.asset.value.world, Centroid(corners), 0.3),
        ClassifyAxis(PortalNormal(corners, normalize)))
  {
    var portal := LinkedPortal(archetype, linked);
    var asset := archetype.asset;
    var color := PortalNormalColor;
    var selected := SelectedPortal(archetype) == portal;
    var alpha := if !selected then 0.0 else PortalNormalSelectedAlpha;
    var command :=
      if selected && portal.Some? && asset.Some? then
        var corners := Corners(archetype.portals[portal.value]);
        var centroid := Centroid(corners);
        var normal := PortalNormal(corners, normalize);
        Some(PresetArrow(ArrowPlacement(asset.value.world, centroid, ArrowScale), ClassifyAxis(normal)))
      else None;
    DrawResult(color, alpha, command)
  }

  /** The host's draw call on one instance, dispatched on its kind. */
  function DrawGizmo(archetype: Archetype, g: Gizmo, normalize: Vec3 -> Vec3): DrawResult
    requires g.kind == RoomGizmo ==> archetype.roomIndex < |archetype.rooms|
  {
    match g.kind
    case RoomGizmo => DrawRoomGizmo(archetype, g.linked)
    case PortalGizmo => DrawPortalGizmo(archetype, g.linked)
    case PortalNormalGizmo => DrawPortalNormalGizmo(archetype, g.linked, normalize)
  }

  /** The arrow of the selected portal stands at the mean of its four corners. */
  lemma ArrowAtPortalCentre(archetype: Archetype, linked: Option<nat>, normalize: Vec3 -> Vec3)
    requires DrawPortalNormalGizmo(archetype, linked, normalize).command.Some?
    ensures archetype.portalIndex < |archetype.portals|
    ensures var p := archetype.portals[archetype.portalIndex];
      DrawPortalNormalGizmo(archetype, linked, normalize).command.value.placement.translation ==
        Vec3((p.corner1.x + p.corner2.x + p.corner3.x + p.corner4.x) / 4.0,
             (p.corner1.y + p.corner2.y + p.corner3.y + p.corner4.y) / 4.0,
             (p.corner1.z + p.corner2.z + p.corner3.z + p.corner4.z) / 4.0)
  {
    CentroidOfQuad(Corners(archetype.portals[archetype.portalIndex]));
  }

  /**
    With the selection out of range, an overlay that was never linked compares
    equal to the (absent) selected portal: it takes the highlighted colour and
    alpha, but submits no shape. The host never reaches this state: with the
    selection out of range the portal group's poll fails, and every overlay a
    rebuild creates is linked.
   */
  lemma UnlinkedPortalGizmoHighlighted(archetype: Archetype, normalize: Vec3 -> Vec3)
    requires archetype.portalIndex >= |archetype.portals|
    ensures DrawPortalGizmo(archetype, None).alpha == 0.7 && DrawPortalGizmo(archetype, None).command.None?
    ensures DrawPortalNormalGizmo(archetype, None, normalize).alpha == 0.3
    ensures DrawPortalNormalGizmo(archetype, None, normalize).command.None?
  {
  }

  // ---------------------------------------------------------------------------
  // Rebuilding a group

  /** The instances of a room group over `count` rooms: the i-th is a room overlay linked to room i. */
  function RoomRebuild(count: nat): (gs: seq<Gizmo>)
    ensures |gs| == count
    ensures forall i :: 0 <= i < count ==> gs[i] == Gizmo(RoomGizmo, Some(i))
  {
    if count == 0 then [] else RoomRebuild(count - 1) + [Gizmo(RoomGizmo, Some(count - 1))]
  }

  /**
    The instances of a portal group over `count` portals: two per portal, the
    normal arrow at 2i and the surface at 2i + 1, both linked to portal i.
   */
  function PortalRebuild(count: nat): (gs: seq<Gizmo>)
    ensures |gs| == 2 * count
    ensures forall k :: 0 <= k < |gs| ==>
      gs[k] == Gizmo(if k % 2 == 0 then PortalNormalGizmo else PortalGizmo, Some(k / 2))
  {
    if count == 0 then []
    else PortalRebuild(count - 1) + [Gizmo(PortalNormalGizmo, Some(count - 1)), Gizmo(PortalGizmo, Some(count - 1))]
  }

  class RoomGizmoGroup {
    var gizmos: seq<Gizmo>

    constructor ()
      ensures gizmos == []
    {
      gizmos := [];
    }

    /**
      Clears the group, then creates one room overlay per room of the archetype,
      each linked to its room. The result does not depend on what the group
      held before.
     */
    method DrawPrepare(archetype: Archetype)
      modifies this
      ensures gizmos == RoomRebuild(|archetype.rooms|)
    {
      gizmos := [];
      for i := 0 to |archetype.rooms|
        invariant gizmos == RoomRebuild(i)
      {
        var gz := NewGizmo(RoomGizmo);
        gz := gz.(linked := Some(i));
        gizmos := gizmos + [gz];
      }
    }
  }

  class PortalGizmoGroup {
    var gizmos: seq<Gizmo>

    constructor ()
      ensures gizmos == []
    {
      gizmos := [];
    }

    /**
      Clears the group, then creates, for each portal of the archetype, a normal
      overlay and then a surface overlay, both linked to that portal. The result
      does not depend on what the group held before.
     */
    method DrawPrepare(archetype: Archetype)
      modifies this
      ensures gizmos == PortalRebuild(|archetype.portals|)
    {
      gizmos := [];
      for i := 0 to |archetype.portals|
        invariant gizmos == PortalRebuild(i)
      {
        var ngz := NewGizmo(PortalNormalGizmo);
        ngz := ngz.(linked := Some(i));
        var gz := NewGizmo(PortalGizmo);
        gz := gz.(linked := Some(i));
        gizmos := gizmos + [ngz, gz];
      }
    }
  }

  /** Rebuilding both groups twice in a frame leaves what rebuilding them once leaves. */
  method RebuildTwice(rooms: RoomGizmoGroup, portals: PortalGizmoGroup, archetype: Archetype)
    modifies rooms, portals
    ensures rooms.gizmos == RoomRebuild(|archetype.rooms|)
    ensures portals.gizmos == PortalRebuild(|archetype.portals|)
  {
    rooms.DrawPrepare(archetype);
    portals.DrawPrepare(archetype);
    ghost var roomsOnce, portalsOnce := rooms.gizmos, portals.gizmos;
    rooms.DrawPrepare(archetype);
    portals.DrawPrepare(archetype);
    assert rooms.gizmos == roomsOnce && portals.gizmos == portalsOnce;
  }

  // ---------------------------------------------------------------------------
  // A whole frame

  /**
    In a rebuilt room group of an archetype with an asset, every overlay draws
    its room's wireframe, and exactly the one linked to the selected room is
    highlighted.
   */
  lemma RoomFrameHighlightsSelection(archetype: Archetype, normalize: Vec3 -> Vec3)
    requires archetype.roomIndex < |archetype.rooms| && archetype.asset.Some?
    ensures forall k :: 0 <= k < |archetype.rooms| ==>
      var d := DrawGizmo(archetype, RoomRebuild(|archetype.rooms|)[k], normalize);
      d.command.Some? && (d.alpha == 0.9 <==> k == archetype.roomIndex)
  {
  }

  /**
    In a rebuilt portal group of an archetype with an asset and an in-range
    selection, every surface overlay draws its portal and exactly the selected
    one is highlighted, and only the selected portal's normal overlay draws an
    arrow.
   */
  lemma PortalFrameHighlightsSelection(archetype: Archetype, normalize: Vec3 -> Vec3)
    requires archetype.portalIndex < |archetype.portals| && archetype.asset.Some?
    ensures forall k :: 0 <= k < 2 * |archetype.portals| ==>
      var d := DrawGizmo(archetype, PortalRebuild(|archetype.portals|)[k], normalize);
      (k % 2 == 1 ==> d.command.Some? && (d.alpha == 0.7 <==> k / 2 == archetype.portalIndex)) &&
      (k % 2 == 0 ==> (d.command.Some? <==> k / 2 == archetype.portalIndex))
  {
  }

  /**
    Two rooms with the first selected: the group holds two overlays, the first
    drawn in the highlighted colour (0.62, 0.76, 2.0) with alpha 0.9 and the
    second in the base colour with alpha 0.7.
   */
  lemma TwoRoomFrame(archetype: Archetype, normalize: Vec3 -> Vec3)
    requires |archetype.rooms| == 2 && archetype.roomIndex == 0
    ensures |RoomRebuild(|archetype.rooms|)| == 2
    ensures var gs := RoomRebuild(|archetype.rooms|);
      DrawGizmo(archetype, gs[0], normalize).color == Color(0.62, 0.76, 2.0) &&
      DrawGizmo(archetype, gs[0], normalize).alpha == 0.9 &&
      DrawGizmo(archetype, gs[1], normalize).color == Color(0.31, 0.38, 1.0) &&
      DrawGizmo(archetype, gs[1], normalize).alpha == 0.7
  {
  }
}
