/** Poses of nodes, kept symbolic.

    The app stores 4x4 float matrices. It multiplies them by small matrices it
    builds itself, and in one place adds a quarter turn to a node's Euler x
    angle. The model records which product is formed, in
    which order, and with which scaled touch delta; it never evaluates a
    matrix. Two poses are the same exactly when they are the same term. */
module Geometry {

  datatype Pose =
    /** A matrix handed over by the tracking system or the renderer
        (a camera transform, a raycast or hit-test world transform). */
    | Tracked(tag: nat)
    /** `matrix_multiply(left, right)`: `right` is applied in the frame of `left`. */
    | Product(left: Pose, right: Pose)
    /** Identity with the translation column set to (x, 0, z). */
    | Translation(x: real, z: real)
    | RotationX(angle: real)
    | RotationY(angle: real)
    | RotationZ(angle: real)
    /** Identity with the three diagonal scale entries set to `factor`. */
    | UniformScale(factor: real)
    /** The fixed local frame used for freeform placement: half a metre in
        front of the camera (z = -0.5), rolled a fixed quarter turn about the
        camera's z axis. The object's up axis is the camera's -x axis, which is
        the top of the screen in portrait, and it stays tied to the camera. */
    | FrontOffset
    /** `base` with its Euler x angle increased by a quarter turn (pi/2). */
    | PitchedUp(base: Pose)

  /** The screen-space movement of one touch sample: current location minus
      previous location. The app passes it on as the vector (dx, 0, dy). */
  datatype Delta = Delta(dx: real, dy: real)

  /** Damping divisors of the manipulation gestures, in screen points. */
  const MoveDamping: real := 200.0
  const RotateDamping: real := 50.0
  const ScaleDamping: real := 50.0

  /** `moveNode`: translate by (dx, 0, dy) / 200 in the node's own frame. */
  function Moved(p: Pose, d: Delta): Pose
  {
    Product(p, Translation(d.dx / MoveDamping, d.dy / MoveDamping))
  }

  /** `rotateNode`: rotate about x, then y, then z, each angle being the
      matching vector component divided by 50. The y component is always 0. */
  function Rotated(p: Pose, d: Delta): Pose
  {
    var aboutX := Product(p, RotationX(d.dx / RotateDamping));
    var aboutY := Product(aboutX, RotationY(0.0 / RotateDamping));
    Product(aboutY, RotationZ(d.dy / RotateDamping))
  }

  /** The uniform factor `scaleNode` applies: 1 + dy / 50. Nothing keeps it positive. */
  function ScaleFactor(d: Delta): real
  {
    1.0 + d.dy / ScaleDamping
  }

  /** `scaleNode`: scale uniformly by `ScaleFactor(d)` in the node's own frame. */
  function Scaled(p: Pose, d: Delta): Pose
  {
    Product(p, UniformScale(ScaleFactor(d)))
  }

  /** `addNodeInFront`: the camera transform times the fixed front frame. */
  function InFrontOf(camera: Pose): Pose
  {
    Product(camera, FrontOffset)
  }
}
