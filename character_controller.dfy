/** `CharacterMotionControllerSystem`: folds the tick's action events into a
    persistent input direction, then pushes the first character body with a
    camera-relative motion force, a jump impulse and a brake force. */
module CharacterController {
  import opened Math
  import opened Events
  import opened Scene
  import opened Physics

  const ForceMultiplier: real := 600.0
  const JumpImpulse: real := 1.5

  /** The five action names the controller reacts to. */
  predicate IsBound(action: string)
  {
    action == "Forward" || action == "Backward" || action == "Right" || action == "Left" || action == "Jump"
  }

  /** The five names differ pairwise (by length, or by their first letter). */
  lemma NamesDistinct()
    ensures "Forward" != "Backward" && "Forward" != "Right" && "Forward" != "Left" && "Forward" != "Jump"
    ensures "Backward" != "Right" && "Backward" != "Left" && "Backward" != "Jump"
    ensures "Right" != "Left" && "Right" != "Jump" && "Left" != "Jump"
  {
    assert "Left"[0] != "Jump"[0];
  }

  function IntAbs(n: int): nat
  {
    if n < 0 then -n else n
  }

  /** What a press of `action` adds to the input direction. */
  function PressDelta(action: string): IntVec3
  {
    if action == "Forward" then IntVec3(0, 0, -1)
    else if action == "Backward" then IntVec3(0, 0, 1)
    else if action == "Right" then IntVec3(-1, 0, 0)
    else if action == "Left" then IntVec3(1, 0, 0)
    else if action == "Jump" then IntVec3(0, 1, 0)
    else ZeroIntVec3
  }

  /** A bound name moves exactly one axis by exactly one unit, only Jump
      moves Y, and any other name moves nothing. */
  lemma PressDeltaIsUnit(action: string)
    ensures var d := PressDelta(action);
      && (IsBound(action) ==> IntAbs(d.x) + IntAbs(d.y) + IntAbs(d.z) == 1)
      && (!IsBound(action) ==> d == ZeroIntVec3)
      && (d.y != 0 <==> action == "Jump")
  {
    NamesDistinct();
    if action == "Forward" {
    } else if action == "Backward" {
    } else if action == "Right" {
    } else if action == "Left" {
    } else if action == "Jump" {
    }
  }

  /** What a release of `action` adds to the input direction (its own table,
      as the source writes it). */
  function ReleaseDelta(action: string): IntVec3
  {
    if action == "Forward" then IntVec3(0, 0, 1)
    else if action == "Backward" then IntVec3(0, 0, -1)
    else if action == "Right" then IntVec3(1, 0, 0)
    else if action == "Left" then IntVec3(-1, 0, 0)
    else if action == "Jump" then IntVec3(0, -1, 0)
    else ZeroIntVec3
  }

  /** Every release undoes exactly the matching press. */
  lemma ReleaseUndoesPress(action: string)
    ensures ReleaseDelta(action) == Neg(PressDelta(action))
  {
    if action == "Forward" {
    } else if action == "Backward" {
    } else if action == "Right" {
    } else if action == "Left" {
    } else if action == "Jump" {
    }
  }

  /** One event's effect on the input direction. */
  function Step(dir: IntVec3, e: InputEvent): IntVec3
  {
    match e
    case ActionPressed(a) => Add(dir, PressDelta(a))
    case ActionReleased(a) => Add(dir, ReleaseDelta(a))
    case _ => dir
  }

  /** The input direction after the events, applied in order. */
  function Accumulate(dir: IntVec3, events: seq<InputEvent>): IntVec3
    decreases |events|
  {
    if events == [] then dir
    else Step(Accumulate(dir, events[..|events| - 1]), events[|events| - 1])
  }

  /** +1 for a press of `action`, -1 for a release of it, 0 otherwise. */
  function EventCount(e: InputEvent, action: string): int
  {
    match e
    case ActionPressed(a) => if a == action then 1 else 0
    case ActionReleased(a) => if a == action then -1 else 0
    case _ => 0
  }

  /** Presses of `action` minus releases of it. */
  function NetPresses(events: seq<InputEvent>, action: string): int
    decreases |events|
  {
    if events == [] then 0
    else NetPresses(events[..|events| - 1], action) + EventCount(events[|events| - 1], action)
  }

  /** The input direction implied by net press counts: Left minus Right on
      X, Jump on Y, Backward minus Forward on Z. */
  function NetDirection(events: seq<InputEvent>): IntVec3
  {
    IntVec3(NetPresses(events, "Left") - NetPresses(events, "Right"),
            NetPresses(events, "Jump"),
            NetPresses(events, "Backward") - NetPresses(events, "Forward"))
  }

  /** An event that moves the accumulator: a press or release of a bound name. */
  predicate IsMovingEvent(e: InputEvent)
  {
    (e.ActionPressed? && IsBound(e.action)) || (e.ActionReleased? && IsBound(e.action))
  }

  lemma StepByCounts(dir: IntVec3, e: InputEvent)
    ensures Step(dir, e) == Add(dir, IntVec3(EventCount(e, "Left") - EventCount(e, "Right"),
                                            EventCount(e, "Jump"),
                                            EventCount(e, "Backward") - EventCount(e, "Forward")))
  {
  }

  /** The accumulator is its start plus the net press counts: there is no
      key state, only counting. */
  lemma {:induction false} AccumulateByNetPresses(dir: IntVec3, events: seq<InputEvent>)
    ensures Accumulate(dir, events) == Add(dir, NetDirection(events))
    decreases |events|
  {
    if events != [] {
      var init := events[..|events| - 1];
      AccumulateByNetPresses(dir, init);
      StepByCounts(Accumulate(dir, init), events[|events| - 1]);
    }
  }

  lemma {:induction false} NetPressesOfConcat(a: seq<InputEvent>, b: seq<InputEvent>, action: string)
    ensures NetPresses(a + b, action) == NetPresses(a, action) + NetPresses(b, action)
    decreases |b|
  {
    if b == [] {
      assert a + b == a;
    } else {
      assert (a + b)[..|a + b| - 1] == a + b[..|b| - 1];
      NetPressesOfConcat(a, b[..|b| - 1], action);
    }
  }

  /** Folding two stretches of events one after the other equals folding
      them together. */
  lemma {:induction false} AccumulateOfConcat(dir: IntVec3, a: seq<InputEvent>, b: seq<InputEvent>)
    ensures Accumulate(dir, a + b) == Accumulate(Accumulate(dir, a), b)
    decreases |b|
  {
    if b == [] {
      assert a + b == a;
    } else {
      assert (a + b)[..|a + b| - 1] == a + b[..|b| - 1];
      AccumulateOfConcat(dir, a, b[..|b| - 1]);
    }
  }

  /** The net count of `action` is its presses minus its releases, wherever
      they sit in the log. */
  lemma {:induction false} NetPressesByMultiset(events: seq<InputEvent>, action: string)
    ensures NetPresses(events, action)
         == multiset(events)[ActionPressed(action)] as int - multiset(events)[ActionReleased(action)]
    decreases |events|
  {
    if events != [] {
      var init, last := events[..|events| - 1], events[|events| - 1];
      assert events == init + [last];
      assert multiset(events) == multiset(init) + multiset{last};
      NetPressesByMultiset(init, action);
      assert EventCount(last, action)
          == multiset{last}[ActionPressed(action)] as int - multiset{last}[ActionReleased(action)] by {
        match last
        case ActionPressed(x) =>
          assert multiset{last}[ActionReleased(action)] == 0;
        case ActionReleased(x) =>
          assert multiset{last}[ActionPressed(action)] == 0;
        case _ =>
      }
    }
  }

  /** The order of the events does not matter to the result: any two logs
      holding the same events, reordered in any way, fold alike. */
  lemma AccumulatePermutation(dir: IntVec3, a: seq<InputEvent>, b: seq<InputEvent>)
    requires multiset(a) == multiset(b)
    ensures Accumulate(dir, a) == Accumulate(dir, b)
  {
    AccumulateByNetPresses(dir, a);
    AccumulateByNetPresses(dir, b);
    var names := ["Forward", "Backward", "Right", "Left", "Jump"];
    forall k | 0 <= k < |names|
      ensures NetPresses(a, names[k]) == NetPresses(b, names[k])
    {
      NetPressesByMultiset(a, names[k]);
      NetPressesByMultiset(b, names[k]);
    }
    assert NetDirection(a) == NetDirection(b) by {
      assert names[0] == "Forward" && names[1] == "Backward" && names[2] == "Right";
      assert names[3] == "Left" && names[4] == "Jump";
    }
  }

  /** In particular, swapping two stretches of events changes nothing. */
  lemma AccumulateOrderIndependent(dir: IntVec3, a: seq<InputEvent>, b: seq<InputEvent>)
    ensures Accumulate(dir, a + b) == Accumulate(dir, b + a)
  {
    assert multiset(a + b) == multiset(b + a);
    AccumulatePermutation(dir, a + b, b + a);
  }

  /** A press immediately undone by its release. */
  lemma PairCancels(dir: IntVec3, action: string)
    ensures Accumulate(dir, [ActionPressed(action), ActionReleased(action)]) == dir
  {
    var press := [ActionPressed(action)];
    var pair := press + [ActionReleased(action)];
    assert pair[..|pair| - 1] == press && press[..0] == [];
    var pressed := Add(dir, PressDelta(action));
    assert Accumulate(dir, press) == pressed;
    assert Accumulate(dir, pair) == Add(pressed, ReleaseDelta(action));
    ReleaseUndoesPress(action);
  }

  /** A press followed by the release of the same action, anywhere in the
      log, leaves the result exactly as without them. */
  lemma PressReleaseCancels(dir: IntVec3, before: seq<InputEvent>, action: string, after: seq<InputEvent>)
    ensures Accumulate(dir, before + [ActionPressed(action), ActionReleased(action)] + after)
         == Accumulate(dir, before + after)
  {
    var pair := [ActionPressed(action), ActionReleased(action)];
    AccumulateOfConcat(dir, before + pair, after);
    AccumulateOfConcat(dir, before, pair);
    AccumulateOfConcat(dir, before, after);
    PairCancels(Accumulate(dir, before), action);
  }

  /** Without key-state tracking, a press never released keeps its push, and
      a release never pressed pushes the other way. */
  lemma NoKeyStateTracking(dir: IntVec3, action: string)
    ensures Accumulate(dir, [ActionPressed(action)]) == Add(dir, PressDelta(action))
    ensures Accumulate(dir, [ActionPressed(action), ActionPressed(action)])
         == Add(Add(dir, PressDelta(action)), PressDelta(action))
    ensures Accumulate(dir, [ActionReleased(action)]) == Add(dir, Neg(PressDelta(action)))
  {
    assert [ActionPressed(action)][..0] == [];
    assert [ActionReleased(action)][..0] == [];
    assert [ActionPressed(action), ActionPressed(action)][..1] == [ActionPressed(action)];
    ReleaseUndoesPress(action);
  }

  /** Unbound action names and non-action events leave the direction alone. */
  lemma {:induction false} IgnoredEventsKeepDirection(dir: IntVec3, events: seq<InputEvent>)
    requires forall i :: 0 <= i < |events| ==> !IsMovingEvent(events[i])
    ensures Accumulate(dir, events) == dir
    decreases |events|
  {
    if events != [] {
      IgnoredEventsKeepDirection(dir, events[..|events| - 1]);
      assert !IsMovingEvent(events[|events| - 1]);
    }
  }

  /** The motion force: the input direction taken through the camera
      matrix, its Y dropped, scaled by the force multiplier. */
  function MotionForce(camera: Matrix4, dir: IntVec3): (f: Vec3)
    ensures f.y == 0.0
  {
    Scale(WithoutY(TransformVector(camera, ToReal(dir))), ForceMultiplier)
  }

  /** With no camera (identity matrix) the motion force is the horizontal
      input direction times 600. */
  lemma MotionForceWithoutCamera(dir: IntVec3)
    ensures MotionForce(Identity4, dir) == Vec3(dir.x as real * 600.0, 0.0, dir.z as real * 600.0)
  {
    TransformIdentity(ToReal(dir));
  }

  /** The jump impulse: straight up, proportional to the Jump count, with no
      ground check. */
  function JumpImpulseFor(dir: IntVec3): (impulse: Vec3)
    ensures impulse.x == 0.0 && impulse.z == 0.0
    ensures dir.y <= 0 ==> impulse.y <= 0.0
    ensures dir.y > 0 ==> impulse.y > 0.0
  {
    Vec3(0.0, dir.y as real * JumpImpulse, 0.0)
  }

  /** The brake force: minus the velocity over the timestep, Y dropped. */
  function BrakeForce(velocity: Vec3, dt: real): (f: Vec3)
    requires dt != 0.0
    ensures f.y == 0.0
    ensures f.x * dt + velocity.x == 0.0 && f.z * dt + velocity.z == 0.0
  {
    WithoutY(Scale(Vec3(velocity.x / dt, velocity.y / dt, velocity.z / dt), -1.0))
  }

  /** The impulse goes along Y only and the brake force drops Y, so however
      much of the impulse the reported velocity already holds (`share`, any
      factor such as an inverse mass), the brake force is the same. */
  lemma ImpulseCannotReachBrake(velocity: Vec3, dir: IntVec3, share: real, dt: real)
    requires dt != 0.0
    ensures var i := JumpImpulseFor(dir);
      BrakeForce(Vec3(velocity.x + share * i.x, velocity.y + share * i.y, velocity.z + share * i.z), dt)
        == BrakeForce(velocity, dt)
  {
  }

  /** The server calls of one tick: for the first character body, if any,
      a motion force, a jump impulse and a brake force. */
  function TickCalls(camera: Matrix4, dir: IntVec3, bodies: seq<BodyHandle>,
                     velocityOf: BodyHandle -> Vec3, dt: real): (calls: seq<Call>)
    requires |bodies| > 0 ==> dt != 0.0
    ensures |calls| == if |bodies| == 0 then 0 else 3
  {
    if |bodies| == 0 then []
    else
      var body := bodies[0];
      [Call.ApplyForce(body, MotionForce(camera, dir)),
       Call.ApplyImpulse(body, JumpImpulseFor(dir)),
       Call.ApplyForce(body, BrakeForce(velocityOf(body), dt))]
  }

  /** What one tick sends: nothing without a body; otherwise only to the
      first body, exactly two forces, both level, and one impulse of
      (0, 1.5 * Jump count, 0). */
  lemma TickCallsShape(camera: Matrix4, dir: IntVec3, bodies: seq<BodyHandle>,
                       velocityOf: BodyHandle -> Vec3, dt: real)
    requires |bodies| > 0 ==> dt != 0.0
    ensures var calls := TickCalls(camera, dir, bodies, velocityOf, dt);
      && (calls == [] <==> |bodies| == 0)
      && (|bodies| > 0 ==> forall i :: 0 <= i < |calls| ==> calls[i].Target() == bodies[0])
      && (forall i :: 0 <= i < |calls| && calls[i].ApplyForce? ==> calls[i].force.y == 0.0)
      && (forall i :: 0 <= i < |calls| && calls[i].ApplyImpulse? ==>
            calls[i].impulse == Vec3(0.0, dir.y as real * 1.5, 0.0))
      && (|bodies| > 0 ==> ForceCount(calls) == 2 && ImpulseCount(calls) == 1)
  {
    if |bodies| > 0 {
      var body := bodies[0];
      var force := Call.ApplyForce(body, MotionForce(camera, dir));
      var impulse := Call.ApplyImpulse(body, JumpImpulseFor(dir));
      var brake := Call.ApplyForce(body, BrakeForce(velocityOf(body), dt));
      var calls := [force, impulse, brake];
      assert TickCalls(camera, dir, bodies, velocityOf, dt) == calls;
      CountsOfSingle(force);
      CountsOfSingle(impulse);
      CountsOfSingle(brake);
      assert [impulse, brake] == [impulse] + [brake] && calls == [force] + [impulse, brake];
      CountsOfConcat([impulse], [brake]);
      CountsOfConcat([force], [impulse, brake]);
    }
  }

  /** The inputs of one tick as the force model sees them. */
  datatype Tick = Tick(camera: Matrix4, dir: IntVec3, bodies: seq<BodyHandle>,
                       velocityOf: BodyHandle -> Vec3, dt: real)

  ghost predicate WellTimed(ticks: seq<Tick>)
  {
    forall i :: 0 <= i < |ticks| ==> (|ticks[i].bodies| > 0 ==> ticks[i].dt != 0.0)
  }

  /** The calls of consecutive ticks, one after the other. */
  function TicksCalls(ticks: seq<Tick>): seq<Call>
    requires WellTimed(ticks)
  {
    if ticks == [] then []
    else
      var t := ticks[0];
      TickCalls(t.camera, t.dir, t.bodies, t.velocityOf, t.dt) + TicksCalls(ticks[1..])
  }

  /** No jump debounce: every tick with a body impulses it once, held Jump
      or not, so N such ticks give exactly N impulses. */
  lemma {:induction false} OneImpulsePerTick(ticks: seq<Tick>)
    requires WellTimed(ticks)
    requires forall i :: 0 <= i < |ticks| ==> |ticks[i].bodies| > 0
    ensures ImpulseCount(TicksCalls(ticks)) == |ticks|
    ensures ForceCount(TicksCalls(ticks)) == 2 * |ticks|
  {
    if ticks != [] {
      var t := ticks[0];
      TickCallsShape(t.camera, t.dir, t.bodies, t.velocityOf, t.dt);
      CountsOfConcat(TickCalls(t.camera, t.dir, t.bodies, t.velocityOf, t.dt), TicksCalls(ticks[1..]));
      OneImpulsePerTick(ticks[1..]);
    }
  }

  class CharacterMotionControllerSystem {
    var inputDirection: IntVec3

    constructor ()
      ensures inputDirection == ZeroIntVec3
    {
      inputDirection := ZeroIntVec3;
    }

    /** The world matrix of the last camera the join visits, or the
        identity when there is no camera. */
    static method CameraMatrix(cameras: seq<Transform>) returns (m: Matrix4)
      ensures |cameras| == 0 ==> m == Identity4
      ensures |cameras| > 0 ==> m == cameras[|cameras| - 1].globalMatrix
    {
      m := Identity4;
      for i := 0 to |cameras|
        invariant i == 0 ==> m == Identity4
        invariant i > 0 ==> m == cameras[i - 1].globalMatrix
      {
        m := cameras[i].globalMatrix;
      }
    }

    /** One run: fold the events into the input direction, then push the
        first character body (the source loop breaks after it). */
    method Run(events: seq<InputEvent>, cameras: seq<Transform>, bodies: seq<BodyHandle>,
               server: RigidBodyServer, dt: real)
      requires |bodies| > 0 ==> dt != 0.0
      modifies this, server
      ensures inputDirection == Accumulate(old(inputDirection), events)
      ensures server.velocityOf == old(server.velocityOf)
      ensures server.log == old(server.log)
                + TickCalls(if |cameras| == 0 then Identity4 else cameras[|cameras| - 1].globalMatrix,
                            inputDirection, bodies, server.velocityOf, dt)
    {
      for i := 0 to |events|
        modifies this
        invariant inputDirection == Accumulate(old(inputDirection), events[..i])
      {
        assert events[..i + 1][..i] == events[..i];
        match events[i]
        case ActionPressed(action) =>
          if action == "Forward" {
            inputDirection := inputDirection.(z := inputDirection.z - 1);
          } else if action == "Backward" {
            inputDirection := inputDirection.(z := inputDirection.z + 1);
          } else if action == "Right" {
            inputDirection := inputDirection.(x := inputDirection.x - 1);
          } else if action == "Left" {
            inputDirection := inputDirection.(x := inputDirection.x + 1);
          } else if action == "Jump" {
            inputDirection := inputDirection.(y := inputDirection.y + 1);
          }
        case ActionReleased(action) =>
          if action == "Forward" {
            inputDirection := inputDirection.(z := inputDirection.z + 1);
          } else if action == "Backward" {
            inputDirection := inputDirection.(z := inputDirection.z - 1);
          } else if action == "Right" {
            inputDirection := inputDirection.(x := inputDirection.x + 1);
          } else if action == "Left" {
            inputDirection := inputDirection.(x := inputDirection.x - 1);
          } else if action == "Jump" {
            inputDirection := inputDirection.(y := inputDirection.y - 1);
          }
        case _ =>
      }
      assert events[..|events|] == events;

      var cameraPos := CameraMatrix(cameras);

      if |bodies| > 0 {
        var body := bodies[0];
        var force := TransformVector(cameraPos, ToReal(inputDirection));
        force := force.(y := 0.0);
        server.ApplyForce(body, Scale(force, ForceMultiplier));

        server.ApplyImpulse(body, Vec3(0.0, inputDirection.y as real * JumpImpulse, 0.0));

        var velocity := server.LinearVelocity(body);
        var brake := Scale(Vec3(velocity.x / dt, velocity.y / dt, velocity.z / dt), -1.0);
        brake := brake.(y := 0.0);
        server.ApplyForce(body, brake);
      }
    }
  }
}
