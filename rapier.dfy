/**
 * The part of the physics engine's interface that the systems use: rigid
 * bodies and colliders stored under opaque handles. The solver itself is
 * not part of this model; a body is only the state the systems read and
 * write.
 */
module Rapier {
  import opened Geometry

  datatype BodyHandle = BodyHandle(index: nat)

  datatype ColliderHandle = ColliderHandle(index: nat)

  /** A body's pose: `Isometry3 { translation, rotation }`. */
  datatype Isometry = Isometry(translation: Vec3, rotation: Quat)

  datatype BodyStatus = Static | Dynamic | Kinematic

  datatype RigidBody = RigidBody(position: Isometry, linvel: Vec3, angvel: Vec3, status: BodyStatus)
  {
    predicate IsDynamic() {
      status == Dynamic
    }
  }

  /** A collider is attached to one parent body. */
  datatype Collider = Collider(parent: BodyHandle)

  /** The engine's body registry (`RigidBodySet`), which the controller writes through. */
  class RigidBodySet {
    var bodies: map<BodyHandle, RigidBody>
  }
}
