/** The physics server at the boundary the character controller uses:
    force and impulse calls, recorded in a log, and a velocity query. */
module Physics {
  import opened Math

  /** An opaque rigid-body handle (`PhysicsHandle<PhysicsRigidBodyTag>`). */
  datatype BodyHandle = BodyHandle(id: nat)

  /** One call the controller made on the rigid-body server. */
  datatype Call =
    | ApplyForce(body: BodyHandle, force: Vec3)
    | ApplyImpulse(body: BodyHandle, impulse: Vec3)
  {
    function Target(): BodyHandle
    {
      match this
      case ApplyForce(b, _) => b
      case ApplyImpulse(b, _) => b
    }
  }

  /** The rigid-body server. Each call is recorded in `log`. The velocity
      `linear_velocity` reports is an input (`velocityOf`): the model does
      not say how the engine turns forces and impulses into velocities. */
  class RigidBodyServer {
    ghost var log: seq<Call>
    var velocityOf: BodyHandle -> Vec3

    constructor (velocityOf: BodyHandle -> Vec3)
      ensures this.velocityOf == velocityOf && log == []
    {
      this.velocityOf := velocityOf;
      log := [];
    }

    method ApplyForce(body: BodyHandle, force: Vec3)
      modifies this`log
      ensures log == old(log) + [Call.ApplyForce(body, force)]
    {
      log := log + [Call.ApplyForce(body, force)];
    }

    method ApplyImpulse(body: BodyHandle, impulse: Vec3)
      modifies this`log
      ensures log == old(log) + [Call.ApplyImpulse(body, impulse)]
    {
      log := log + [Call.ApplyImpulse(body, impulse)];
    }

    function LinearVelocity(body: BodyHandle): Vec3
      reads this
    {
      velocityOf(body)
    }
  }

  /** How many impulses a log holds. */
  function ImpulseCount(log: seq<Call>): nat
  {
    if log == [] then 0
    else (if log[0].ApplyImpulse? then 1 else 0) + ImpulseCount(log[1..])
  }

  /** How many forces a log holds. */
  function ForceCount(log: seq<Call>): nat
  {
    if log == [] then 0
    else (if log[0].ApplyForce? then 1 else 0) + ForceCount(log[1..])
  }

  /** A one-call log counts that call once, as a force or as an impulse. */
  lemma CountsOfSingle(c: Call)
    ensures ForceCount([c]) == (if c.ApplyForce? then 1 else 0)
    ensures ImpulseCount([c]) == (if c.ApplyImpulse? then 1 else 0)
  {
    assert [c][1..] == [];
  }

  /** Counting calls distributes over consecutive stretches of the log, so
      the calls of several ticks add up tick by tick. */
  lemma {:induction false} CountsOfConcat(a: seq<Call>, b: seq<Call>)
    ensures ImpulseCount(a + b) == ImpulseCount(a) + ImpulseCount(b)
    ensures ForceCount(a + b) == ForceCount(a) + ForceCount(b)
  {
    if a != [] {
      assert (a + b)[1..] == a[1..] + b;
      CountsOfConcat(a[1..], b);
    } else {
      assert a + b == b;
    }
  }
}
