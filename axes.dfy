/**
  The axis classifier: the host's preset arrow only points along one of six
  axes, so a portal's unit normal is snapped to one of them by exact comparison.
 */
module Axes {

  import opened Geometry

  datatype Axis = PosX | NegX | PosY | NegY | PosZ | NegZ

  function UnitVector(a: Axis): Vec3 {
    match a
    case PosX => Vec3(1.0, 0.0, 0.0)
    case NegX => Vec3(-1.0, 0.0, 0.0)
    case PosY => Vec3(0.0, 1.0, 0.0)
    case NegY => Vec3(0.0, -1.0, 0.0)
    case PosZ => Vec3(0.0, 0.0, 1.0)
    case NegZ => Vec3(0.0, 0.0, -1.0)
  }

  /**
    The label of an (already normalised) normal. A label other than PosX is
    returned only for the exact unit vector of that label; every other vector,
    (1, 0, 0) among them, falls back to PosX.
   */
  function ClassifyAxis(normal: Vec3): (a: Axis)
    ensures a != PosX ==> UnitVector(a) == normal
    ensures a == PosX <==> forall b: Axis :: b != PosX ==> UnitVector(b) != normal
  {
    if normal == Vec3(-1.0, 0.0, 0.0) then NegX
    else if normal == Vec3(0.0, 1.0, 0.0) then PosY
    else if normal == Vec3(0.0, -1.0, 0.0) then NegY
    else if normal == Vec3(0.0, 0.0, 1.0) then PosZ
    else if normal == Vec3(0.0, 0.0, -1.0) then NegZ
    else PosX
  }

  /** Each of the six unit vectors is classified as its own label. */
  lemma ClassifyUnitVector(a: Axis)
    ensures ClassifyAxis(UnitVector(a)) == a
  {
    match a
    case PosX =>
    case NegX =>
    case PosY =>
    case NegY =>
    case PosZ =>
    case NegZ =>
  }
}
