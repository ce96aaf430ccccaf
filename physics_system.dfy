/**
 * The pose sync of the game client: after the physics step, every entity
 * with a collider takes the translation and rotation of the rigid body
 * the collider is attached to, when that body is dynamic.
 *
 * The engine's collider set is a map from handle to collider; the query
 * over `(collider handle, transform)` is an array of entities, rewritten
 * in place.
 */
module PhysicsSystem {
  import opened Geometry
  import opened Rapier

  /** One row of the sync query: the entity's collider handle and its render transform. */
  datatype Entity = Entity(collider: ColliderHandle, transform: Transform)

  /** The collider resolves, and so does its parent body. */
  predicate Resolves(bodies: map<BodyHandle, RigidBody>, colliders: map<ColliderHandle, Collider>, h: ColliderHandle) {
    h in colliders && colliders[h].parent in bodies
  }

  /** The entity follows a body: its collider and parent resolve, and the parent is dynamic. */
  predicate Follows(bodies: map<BodyHandle, RigidBody>, colliders: map<ColliderHandle, Collider>, h: ColliderHandle) {
    Resolves(bodies, colliders, h) && bodies[colliders[h].parent].IsDynamic()
  }

  /** The body pose an entity that `Follows` takes. */
  function ParentPose(bodies: map<BodyHandle, RigidBody>, colliders: map<ColliderHandle, Collider>, h: ColliderHandle): Isometry
    requires Resolves(bodies, colliders, h)
  {
    bodies[colliders[h].parent].position
  }

  /**
   * One iteration of `sync_physics`: a missing collider, a missing parent
   * body or a body that is not dynamic leaves the entity alone; otherwise
   * the translation and the rotation are copied component-wise from the
   * body's pose, and nothing else of the transform is written.
   */
  function SyncEntity(e: Entity, bodies: map<BodyHandle, RigidBody>, colliders: map<ColliderHandle, Collider>): (r: Entity)
    ensures r.collider == e.collider && r.transform.scale == e.transform.scale
    ensures !Follows(bodies, colliders, e.collider) ==> r == e
    ensures Follows(bodies, colliders, e.collider) ==>
              && r.transform.translation == ParentPose(bodies, colliders, e.collider).translation
              && r.transform.rotation == ParentPose(bodies, colliders, e.collider).rotation
  {
    if e.collider in colliders then
      var parent := colliders[e.collider].parent;
      if parent in bodies then
        var body := bodies[parent];
        if body.IsDynamic() then
          var trans := body.position.translation;
          var rot := body.position.rotation;
          e.(transform := e.transform.(translation := Vec3(trans.x, trans.y, trans.z), rotation := Quat(rot.x, rot.y, rot.z, rot.w)))
        else e
      else e
    else e
  }

  /** Every entity of the query after one sync pass, each handled on its own. */
  function Synced(es: seq<Entity>, bodies: map<BodyHandle, RigidBody>, colliders: map<ColliderHandle, Collider>): (r: seq<Entity>)
    ensures |r| == |es|
    ensures forall i :: 0 <= i < |es| ==> r[i] == SyncEntity(es[i], bodies, colliders)
    decreases |es|
  {
    if es == [] then [] else [SyncEntity(es[0], bodies, colliders)] + Synced(es[1..], bodies, colliders)
  }

  /** `sync_physics`: the loop over the query, rewriting each transform in place. */
  method SyncPhysics(entities: array<Entity>, bodySet: RigidBodySet, colliders: map<ColliderHandle, Collider>)
    modifies entities
    ensures entities[..] == Synced(old(entities[..]), bodySet.bodies, colliders)
  {
    for i := 0 to entities.Length
      invariant forall k :: 0 <= k < i ==> entities[k] == SyncEntity(old(entities[k]), bodySet.bodies, colliders)
      invariant forall k :: i <= k < entities.Length ==> entities[k] == old(entities[k])
    {
      var e := entities[i];
      if e.collider in colliders {
        var parent := colliders[e.collider].parent;
        if parent in bodySet.bodies {
          var body := bodySet.bodies[parent];
          if body.IsDynamic() {
            var trans := body.position.translation;
            entities[i] := e.(transform := e.transform.(translation := Vec3(trans.x, trans.y, trans.z)));
            var rot := body.position.rotation;
            entities[i] := entities[i].(transform := entities[i].transform.(rotation := Quat(rot.x, rot.y, rot.z, rot.w)));
          }
        }
      }
    }
  }

  /** Syncing an entity a second time against the same bodies changes nothing. */
  lemma SyncEntityIdempotent(e: Entity, bodies: map<BodyHandle, RigidBody>, colliders: map<ColliderHandle, Collider>)
    ensures SyncEntity(SyncEntity(e, bodies, colliders), bodies, colliders) == SyncEntity(e, bodies, colliders)
  {
  }

  /** The sync is idempotent. */
  lemma SyncIdempotent(es: seq<Entity>, bodies: map<BodyHandle, RigidBody>, colliders: map<ColliderHandle, Collider>)
    ensures Synced(Synced(es, bodies, colliders), bodies, colliders) == Synced(es, bodies, colliders)
  {
    var once := Synced(es, bodies, colliders);
    forall i | 0 <= i < |es|
      ensures Synced(once, bodies, colliders)[i] == once[i]
    {
      SyncEntityIdempotent(es[i], bodies, colliders);
    }
  }

  /** Each entity is synced on its own: splitting the query splits the result. */
  lemma SyncIsLocal(a: seq<Entity>, b: seq<Entity>, bodies: map<BodyHandle, RigidBody>, colliders: map<ColliderHandle, Collider>)
    ensures Synced(a + b, bodies, colliders) == Synced(a, bodies, colliders) + Synced(b, bodies, colliders)
  {
    var whole, left, right := Synced(a + b, bodies, colliders), Synced(a, bodies, colliders), Synced(b, bodies, colliders);
    assert |whole| == |left + right|;
    forall i | 0 <= i < |whole|
      ensures whole[i] == (left + right)[i]
    {
      if i < |a| {
        calc {
          whole[i];
          SyncEntity((a + b)[i], bodies, colliders);
          { assert (a + b)[i] == a[i]; }
          SyncEntity(a[i], bodies, colliders);
          left[i];
          (left + right)[i];
        }
      } else {
        calc {
          whole[i];
          SyncEntity((a + b)[i], bodies, colliders);
          { assert (a + b)[i] == b[i - |a|]; }
          SyncEntity(b[i - |a|], bodies, colliders);
          right[i - |a|];
          (left + right)[i];
        }
      }
    }
  }

  /** The query after `n` sync passes against the same bodies and colliders. */
  function SyncPasses(es: seq<Entity>, bodies: map<BodyHandle, RigidBody>, colliders: map<ColliderHandle, Collider>, n: nat): seq<Entity>
    decreases n
  {
    if n == 0 then es else Synced(SyncPasses(es, bodies, colliders, n - 1), bodies, colliders)
  }

  /** Any positive number of passes gives what one pass gives. */
  lemma {:induction false} SyncPassesIsOnePass(
    es: seq<Entity>, bodies: map<BodyHandle, RigidBody>, colliders: map<ColliderHandle, Collider>, n: nat)
    requires n >= 1
    ensures SyncPasses(es, bodies, colliders, n) == Synced(es, bodies, colliders)
    decreases n
  {
    if n > 1 {
      SyncPassesIsOnePass(es, bodies, colliders, n - 1);
      SyncIdempotent(es, bodies, colliders);
    }
  }

  /**
   * An entity that does not follow a dynamic body (its collider or parent
   * is missing, or the body is static or kinematic) keeps its transform
   * across any number of passes.
   */
  lemma {:induction false} UnfollowedEntityStaysPut(
    es: seq<Entity>, bodies: map<BodyHandle, RigidBody>, colliders: map<ColliderHandle, Collider>, n: nat, i: nat)
    requires i < |es| && !Follows(bodies, colliders, es[i].collider)
    ensures |SyncPasses(es, bodies, colliders, n)| == |es|
    ensures SyncPasses(es, bodies, colliders, n)[i] == es[i]
    decreases n
  {
    if n > 0 {
      UnfollowedEntityStaysPut(es, bodies, colliders, n - 1, i);
    }
  }
}
