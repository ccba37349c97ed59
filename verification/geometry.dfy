/**
 * Placement of a button's hologram relative to a menu's anchor and facing
 * direction, over exact reals (Bukkit's Vector arithmetic without rounding).
 */
module Geometry {

  datatype Vec3 = Vec3(x: real, y: real, z: real)

  const Up := Vec3(0.0, 1.0, 0.0)

  function Add(a: Vec3, b: Vec3): Vec3 {
    Vec3(a.x + b.x, a.y + b.y, a.z + b.z)
  }

  function Scale(a: Vec3, k: real): Vec3 {
    Vec3(a.x * k, a.y * k, a.z * k)
  }

  function Dot(a: Vec3, b: Vec3): real {
    a.x * b.x + a.y * b.y + a.z * b.z
  }

  /** Bukkit's Vector.getCrossProduct, component by component. */
  function Cross(a: Vec3, b: Vec3): (c: Vec3)
    ensures Dot(c, a) == 0.0 && Dot(c, b) == 0.0
  {
    Vec3(a.y * b.z - b.y * a.z, a.z * b.x - b.z * a.x, a.x * b.y - b.x * a.y)
  }

  /** The same vector with its y component replaced (Vector.setY). */
  function WithY(a: Vec3, y: real): Vec3 {
    Vec3(a.x, y, a.z)
  }

  /**
   * getLocation: one step along the flattened facing direction, offsetX
   * steps sideways along direction x Up, and offsetY up from the anchor.
   */
  function Place(anchor: Vec3, direction: Vec3, offsetX: real, offsetY: real): (r: Vec3)
    ensures r.x == anchor.x + direction.x - offsetX * direction.z
    ensures r.y == anchor.y + offsetY
    ensures r.z == anchor.z + direction.z + offsetX * direction.x
  {
    var orthogonal := Scale(Cross(direction, Up), offsetX);
    var position := Add(WithY(direction, 0.0), orthogonal);
    Add(Add(anchor, Vec3(0.0, offsetY, 0.0)), position)
  }

  /** The sideways axis is the facing direction turned a quarter about the vertical. */
  lemma CrossUp(d: Vec3)
    ensures Cross(d, Up) == Vec3(-d.z, 0.0, d.x)
  {
  }

  /** The vertical part of the facing direction has no effect on the placement. */
  lemma PlaceIgnoresDirectionY(anchor: Vec3, d: Vec3, e: Vec3, offsetX: real, offsetY: real)
    requires d.x == e.x && d.z == e.z
    ensures Place(anchor, d, offsetX, offsetY) == Place(anchor, e, offsetX, offsetY)
  {
  }

  /**
   * Taking away the vertical offset and the forward step leaves a horizontal
   * sideways step, at right angles to the facing direction, offsetX times
   * as long as the flattened facing direction.
   */
  lemma PlaceSidewaysStep(anchor: Vec3, d: Vec3, offsetX: real, offsetY: real)
    ensures var side := Add(Place(anchor, d, offsetX, offsetY), Scale(Add(Add(anchor, Vec3(0.0, offsetY, 0.0)), WithY(d, 0.0)), -1.0));
      side.y == 0.0 && Dot(side, d) == 0.0
      && Dot(side, side) == offsetX * offsetX * Dot(WithY(d, 0.0), WithY(d, 0.0))
  {
  }

  /** Moving the anchor moves the placement by the same amount. */
  lemma PlaceFollowsAnchor(anchor: Vec3, shift: Vec3, d: Vec3, offsetX: real, offsetY: real)
    ensures Place(Add(anchor, shift), d, offsetX, offsetY) == Add(Place(anchor, d, offsetX, offsetY), shift)
  {
  }

  /** A menu facing straight up or down collapses the sideways offset: only offsetY moves the button. */
  lemma PlaceVerticalFacing(anchor: Vec3, d: Vec3, offsetX: real, offsetY: real)
    requires d.x == 0.0 && d.z == 0.0
    ensures Place(anchor, d, offsetX, offsetY) == Add(anchor, Vec3(0.0, offsetY, 0.0))
  {
    var r := Place(anchor, d, offsetX, offsetY);
    assert offsetX * d.z == 0.0 && offsetX * d.x == 0.0;
    assert r.x == anchor.x && r.z == anchor.z;
  }

  /** Anchor at the origin facing +x, offsets x = 2 and y = 3: the button stands at (1, 3, 2). */
  lemma PlaceExample()
    ensures Place(Vec3(0.0, 0.0, 0.0), Vec3(1.0, 0.0, 0.0), 2.0, 3.0) == Vec3(1.0, 3.0, 2.0)
  {
    var r := Place(Vec3(0.0, 0.0, 0.0), Vec3(1.0, 0.0, 0.0), 2.0, 3.0);
    assert 2.0 * 0.0 == 0.0 && 2.0 * 1.0 == 2.0;
    assert r.x == 1.0 && r.y == 3.0 && r.z == 2.0;
  }
}
