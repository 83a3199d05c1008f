/**
  The per-frame scene snapshot the overlays read, the visibility gate that
  decides whether any overlay is drawn, and the two groups' eligibility polls.
 */
module Scene {

  import opened Wrappers
  import opened Geometry

  /** Identity of a scene object, as compared by `==` between objects. */
  type ObjectId = nat

  /** An archetype's type tag: only the interior-layout (MLO) kind has rooms and portals to show. */
  datatype ArchetypeKind = Mlo | OtherKind(tag: string)

  /** The scene object an interior is anchored to. */
  datatype Asset = Asset(id: ObjectId, visible: bool, world: Matrix)

  /** A room's axis-aligned bounds in the asset's local space. */
  datatype Room = Room(bbMin: Vec3, bbMax: Vec3)

  /** A portal's four corners, in perimeter order, in the asset's local space. */
  datatype Portal = Portal(corner1: Vec3, corner2: Vec3, corner3: Vec3, corner4: Vec3)

  function Corners(p: Portal): seq<Vec3> {
    [p.corner1, p.corner2, p.corner3, p.corner4]
  }

  datatype Archetype = Archetype(
    kind: ArchetypeKind,
    asset: Option<Asset>,
    rooms: seq<Room>,
    portals: seq<Portal>,
    roomIndex: nat,
    portalIndex: nat)

  /**
    What the overlays read from the host in one frame. `assetIsAncestor` is the
    answer of the scene graph's ancestor search for the active object and the
    selected archetype's asset.
   */
  datatype Snapshot = Snapshot(
    activeObject: Option<ObjectId>,
    archetype: Option<Archetype>,
    assetIsAncestor: bool,
    showRoomGizmo: bool,
    showPortalGizmo: bool)

  /**
    The visibility gate: overlays are drawn only for a selected MLO archetype
    whose asset exists and is visible, while the active object is that asset or
    lies under it.
   */
  function CanDrawGizmos(s: Snapshot): (r: bool)
    ensures s.activeObject.None? || s.archetype.None? ==> !r
    ensures r <==>
      s.activeObject.Some? && s.archetype.Some? &&
      s.archetype.value.asset.Some? && s.archetype.value.kind == Mlo &&
      s.archetype.value.asset.value.visible &&
      (s.activeObject.value == s.archetype.value.asset.value.id || s.assetIsAncestor)
  {
    if s.activeObject.Some? && s.archetype.Some? then
      var archetype := s.archetype.value;
      if archetype.asset.None? || archetype.kind != Mlo then false
      else if !archetype.asset.value.visible then false
      else s.activeObject.value == archetype.asset.value.id || s.assetIsAncestor
    else
      false
  }

  /** The room group is shown when its toggle is on, the gate passes and the selected room exists. */
  function RoomGroupPoll(s: Snapshot): (r: bool)
    ensures !s.showRoomGizmo ==> !r
    ensures r <==>
      s.showRoomGizmo && CanDrawGizmos(s) &&
      s.archetype.value.roomIndex < |s.archetype.value.rooms|
  {
    if !s.showRoomGizmo then false
    else if CanDrawGizmos(s) then
      var archetype := s.archetype.value;
      archetype.roomIndex < |archetype.rooms|
    else false
  }

  /** The portal group is shown when its toggle is on, the gate passes and the selected portal exists. */
  function PortalGroupPoll(s: Snapshot): (r: bool)
    ensures !s.showPortalGizmo ==> !r
    ensures r <==>
      s.showPortalGizmo && CanDrawGizmos(s) &&
      s.archetype.value.portalIndex < |s.archetype.value.portals|
  {
    if !s.showPortalGizmo then false
    else if CanDrawGizmos(s) then
      var archetype := s.archetype.value;
      archetype.portalIndex < |archetype.portals|
    else false
  }

  /**
    The gate passes when the active object is the asset itself of a visible MLO
    archetype, whatever the ancestor search says.
   */
  lemma GateOpensForAssetItself(s: Snapshot)
    requires s.activeObject.Some? && s.archetype.Some? && s.archetype.value.kind == Mlo
    requires s.archetype.value.asset.Some? && s.archetype.value.asset.value.visible
    requires s.activeObject.value == s.archetype.value.asset.value.id
    ensures CanDrawGizmos(s)
  {
  }

  /** An active object unrelated to the asset closes the gate. */
  lemma GateClosedForUnrelatedObject(s: Snapshot)
    requires s.activeObject.Some? && s.archetype.Some? && s.archetype.value.asset.Some?
    requires s.activeObject.value != s.archetype.value.asset.value.id && !s.assetIsAncestor
    ensures !CanDrawGizmos(s) && !RoomGroupPoll(s) && !PortalGroupPoll(s)
  {
  }

  /**
    A selection index at or past the end of its sequence disables that group
    instead of failing: with one portal and portal index 5 nothing is polled in.
   */
  lemma OutOfRangePortalDisablesGroup(s: Snapshot)
    requires s.archetype.Some? && |s.archetype.value.portals| == 1 && s.archetype.value.portalIndex == 5
    ensures !PortalGroupPoll(s)
  {
  }
}
