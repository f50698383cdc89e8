/**
 * The behaviour decision element that decides with which foot the robot can
 * kick, from the ball's position in the robot's own frame (u forward, v to
 * the side). The two kick areas are axis-aligned boxes read from the
 * configuration once, when the element is built.
 */
module BallKickArea {

  /** One kick area: a box with bounds inclusive on all four sides. */
  datatype Box = Box(minX: real, minY: real, maxX: real, maxY: real)

  /** The configured areas for the right and the left kick. */
  datatype KickAreas = KickAreas(right: Box, left: Box)

  const Right := "RIGHT"
  const Left := "LEFT"
  const Far := "FAR"

  /** Chained comparisons `min <= p <= max` on both axes. */
  predicate Contains(b: Box, u: real, v: real) {
    b.minX <= u <= b.maxX && b.minY <= v <= b.maxY
  }

  /**
   * The answer for a ball at (u, v): RIGHT when it lies in the right box,
   * otherwise LEFT when it lies in the left box, otherwise FAR. The right
   * box is checked first, so it wins where the two overlap.
   */
  function Perform(areas: KickAreas, u: real, v: real): (r: string)
    ensures r == Right <==> Contains(areas.right, u, v)
    ensures r == Left <==> !Contains(areas.right, u, v) && Contains(areas.left, u, v)
    ensures r == Far <==> !Contains(areas.right, u, v) && !Contains(areas.left, u, v)
    ensures r in {Right, Left, Far}
  {
    if Contains(areas.right, u, v) then Right
    else if Contains(areas.left, u, v) then Left
    else Far
  }

  /** A ball in both boxes is kicked with the right foot. */
  lemma RightHasPriority(areas: KickAreas, u: real, v: real)
    requires Contains(areas.right, u, v) && Contains(areas.left, u, v)
    ensures Perform(areas, u, v) == Right
  {
  }

  /**
   * The bounds are inclusive: a ball on any corner of a non-empty right box
   * still gets RIGHT.
   */
  lemma CornersAreInside(areas: KickAreas)
    requires areas.right.minX <= areas.right.maxX && areas.right.minY <= areas.right.maxY
    ensures Perform(areas, areas.right.minX, areas.right.minY) == Right
    ensures Perform(areas, areas.right.minX, areas.right.maxY) == Right
    ensures Perform(areas, areas.right.maxX, areas.right.minY) == Right
    ensures Perform(areas, areas.right.maxX, areas.right.maxY) == Right
  {
  }

  /**
   * When the two boxes do not overlap, the order of the tests does not
   * matter: the answer is LEFT exactly when the ball lies in the left box.
   */
  lemma DisjointBoxesOrderIrrelevant(areas: KickAreas, u: real, v: real)
    requires areas.right.maxX < areas.left.minX || areas.left.maxX < areas.right.minX ||
             areas.right.maxY < areas.left.minY || areas.left.maxY < areas.right.minY
    ensures Perform(areas, u, v) == Left <==> Contains(areas.left, u, v)
  {
  }

  /** The ball moves relative to the robot on its own, so the decision is always re-evaluated. */
  function GetReevaluate(): (r: bool)
    ensures r
  {
    true
  }
}
