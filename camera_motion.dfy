/** `CameraMotionSystem`: turns the tick's first mouse motion into a yaw and
    a (possibly clamped) pitch of the camera boom. */
module CameraMotion {
  import opened Math
  import opened Events
  import opened Scene

  const MouseSensitivity: real := 0.2
  /** Pitch bound in degrees beyond which further outward pitch is refused. */
  const MaxPitchAngle: real := 20.0

  /** A tick's rotation request: pitch (about X) and yaw (about Y), before
      scaling by the timestep. */
  datatype Motion = Motion(pitch: real, yaw: real)

  ghost predicate NoMouseBefore(events: seq<InputEvent>, k: int)
  {
    forall i :: 0 <= i < k && i < |events| ==> !events[i].MouseMoved?
  }

  /** The (pitch, yaw) motion of a tick: the first `MouseMoved` event's
      vertical delta and negated horizontal delta, scaled by the sensitivity;
      (0, 0) when the tick has no mouse motion. */
  function MouseMotion(events: seq<InputEvent>): (m: Motion)
    ensures NoMouseBefore(events, |events|) ==> m == Motion(0.0, 0.0)
  {
    if events == [] then Motion(0.0, 0.0)
    else match events[0]
      case MouseMoved(dx, dy) => Motion(dy * MouseSensitivity, dx * -1.0 * MouseSensitivity)
      case _ => MouseMotion(events[1..])
  }

  /** The first mouse motion of a tick decides the tick's motion. */
  lemma {:induction false} MotionOfFirstMouseEvent(events: seq<InputEvent>, k: nat)
    requires k < |events| && events[k].MouseMoved? && NoMouseBefore(events, k)
    ensures MouseMotion(events) == Motion(events[k].deltaY * MouseSensitivity, -events[k].deltaX * MouseSensitivity)
  {
    if k > 0 {
      assert !events[0].MouseMoved?;
      assert events[1..][k - 1] == events[k];
      assert NoMouseBefore(events[1..], k - 1) by {
        forall i | 0 <= i < k - 1 ensures !events[1..][i].MouseMoved? {
          assert events[1..][i] == events[i + 1];
        }
      }
      MotionOfFirstMouseEvent(events[1..], k - 1);
    }
  }

  /** Reads the tick's events and keeps the first mouse motion, stopping at it. */
  method CaptureMotion(events: seq<InputEvent>) returns (motion: Motion)
    ensures motion == MouseMotion(events)
  {
    var motionX, motionY := 0.0, 0.0;
    var i := 0;
    while i < |events|
      invariant 0 <= i <= |events|
      invariant NoMouseBefore(events, i)
      invariant motionX == 0.0 && motionY == 0.0
    {
      if events[i].MouseMoved? {
        motionX := events[i].deltaY;
        motionY := events[i].deltaX * -1.0;
        MotionOfFirstMouseEvent(events, i);
        break;
      }
      i := i + 1;
    }
    motion := Motion(motionX * MouseSensitivity, motionY * MouseSensitivity);
  }

  /** Once a tick holds a mouse motion, later events cannot change its motion. */
  lemma {:induction false} MotionFirstWins(a: seq<InputEvent>, b: seq<InputEvent>)
    requires exists i :: 0 <= i < |a| && a[i].MouseMoved?
    ensures MouseMotion(a + b) == MouseMotion(a)
  {
    assert a != [];
    assert (a + b)[0] == a[0];
    if !a[0].MouseMoved? {
      assert (a + b)[1..] == a[1..] + b;
      var i :| 0 <= i < |a| && a[i].MouseMoved?;
      assert a[1..][i - 1].MouseMoved?;
      MotionFirstWins(a[1..], b);
    }
  }

  /** Events without mouse motion in front of a tick's events change nothing. */
  lemma {:induction false} MotionSkipsOtherEvents(a: seq<InputEvent>, b: seq<InputEvent>)
    requires NoMouseBefore(a, |a|)
    ensures MouseMotion(a + b) == MouseMotion(b)
  {
    if a == [] {
      assert a + b == b;
    } else {
      assert (a + b)[0] == a[0] && !a[0].MouseMoved?;
      assert (a + b)[1..] == a[1..] + b;
      assert NoMouseBefore(a[1..], |a[1..]|) by {
        forall i | 0 <= i < |a[1..]| ensures !a[1..][i].MouseMoved? {
          assert a[1..][i] == a[i + 1];
        }
      }
      MotionSkipsOtherEvents(a[1..], b);
    }
  }

  /** The decoded pitch (degrees), mirrored by half a turn when the decoded
      angle about Z exceeds a quarter turn, to undo the Euler ambiguity. */
  function MirroredPitch(pitchDeg: real, aboutZ: real): (p: real)
    ensures Abs(aboutZ) <= HalfPi ==> p == pitchDeg
    ensures Abs(aboutZ) > HalfPi ==> p == pitchDeg + 180.0 || p == pitchDeg - 180.0
    ensures Abs(aboutZ) > HalfPi ==> (pitchDeg < 0.0 ==> p >= pitchDeg) && (pitchDeg >= 0.0 ==> p < pitchDeg)
    ensures Abs(aboutZ) > HalfPi && -180.0 <= pitchDeg <= 180.0 ==>
              -180.0 <= p <= 180.0 && (pitchDeg < 0.0 ==> p >= 0.0) && (pitchDeg >= 0.0 ==> p <= 0.0)
  {
    if Abs(aboutZ) > HalfPi then
      if pitchDeg < 0.0 then pitchDeg + 180.0 else pitchDeg - 180.0
    else
      pitchDeg
  }

  /** The pitch the clamp judges: the decoded angle about X in degrees,
      mirrored by the angle about Z. */
  function BoomPitch(angles: EulerAngles): real
  {
    MirroredPitch(ToDegrees(angles.aboutX), angles.aboutZ)
  }

  /** 0 blocks this tick's pitch, 1 lets it through. The pitch is blocked
      exactly when the boom is already beyond the bound and the motion would
      take it further out (a zero motion counts as upward, as `signum` does). */
  function PitchClamper(pitchDeg: real, motionPitch: real): (c: real)
    ensures c == 0.0 || c == 1.0
    ensures c == 0.0 <==> ((pitchDeg > MaxPitchAngle && motionPitch >= 0.0)
                        || (pitchDeg < -MaxPitchAngle && motionPitch < 0.0))
  {
    if pitchDeg > MaxPitchAngle || pitchDeg < -MaxPitchAngle then
      if Signum(pitchDeg) != Signum(motionPitch) then 1.0 else 0.0
    else
      1.0
  }

  /** Within the bound, and whenever the motion points back toward it, the
      pitch is never blocked. */
  lemma PitchAllowedInwards(pitchDeg: real, motionPitch: real)
    ensures -MaxPitchAngle <= pitchDeg <= MaxPitchAngle ==> PitchClamper(pitchDeg, motionPitch) == 1.0
    ensures pitchDeg > MaxPitchAngle && motionPitch < 0.0 ==> PitchClamper(pitchDeg, motionPitch) == 1.0
    ensures pitchDeg < -MaxPitchAngle && motionPitch >= 0.0 ==> PitchClamper(pitchDeg, motionPitch) == 1.0
  {
  }

  /** The pitch angle of this tick's rotation (radians): the motion times
      the clamper times the timestep. */
  function PitchDelta(pitchDeg: real, motion: Motion, dt: real): (angle: real)
    ensures angle == motion.pitch * dt || angle == 0.0
  {
    motion.pitch * PitchClamper(pitchDeg, motion.pitch) * dt
  }

  /** The boom's new rotation: the yaw is applied on the left (world space),
      the clamped pitch on the right (the boom's own space). */
  function BoomRotation(current: Rotation, pitchDeg: real, motion: Motion, dt: real): (r: Rotation)
    ensures r.Compose? && r.lhs.Compose? && r.lhs.rhs == current
    ensures r.lhs.lhs == AxisAngle(YAxis, motion.yaw * dt)
    ensures r.rhs.AxisAngle? && r.rhs.axis == XAxis
    ensures r.rhs.angle == motion.pitch * dt || r.rhs.angle == 0.0
  {
    Compose(Compose(AxisAngle(YAxis, motion.yaw * dt), current),
            AxisAngle(XAxis, PitchDelta(pitchDeg, motion, dt)))
  }

  /** Beyond the bound, an outward motion pitches the boom by a zero angle,
      and a motion back toward the bound pitches it by the full motion. */
  lemma OutwardPitchFrozen(pitchDeg: real, motion: Motion, dt: real)
    ensures ((pitchDeg > MaxPitchAngle && motion.pitch >= 0.0) || (pitchDeg < -MaxPitchAngle && motion.pitch < 0.0))
              ==> PitchDelta(pitchDeg, motion, dt) == 0.0
    ensures ((pitchDeg > MaxPitchAngle && motion.pitch < 0.0) || (pitchDeg < -MaxPitchAngle && motion.pitch >= 0.0))
              ==> PitchDelta(pitchDeg, motion, dt) == motion.pitch * dt
  {
  }

  /** A tick without mouse motion turns the boom by zero angles. */
  lemma NoMotionZeroAngles(pitchDeg: real, events: seq<InputEvent>, dt: real)
    requires NoMouseBefore(events, |events|)
    ensures MouseMotion(events).yaw * dt == 0.0 && PitchDelta(pitchDeg, MouseMotion(events), dt) == 0.0
  {
  }

  /** One run of the system: hide the cursor, capture the motion, and rotate
      the first camera boom only (the source loop breaks after it). */
  method Run(hideCursor: HideCursor, booms: seq<Transform>, events: seq<InputEvent>,
             dt: real, euler: Rotation -> EulerAngles)
    requires Distinct(booms)
    modifies hideCursor, booms
    ensures hideCursor.hidden
    ensures |booms| > 0 ==>
              booms[0].rotation == BoomRotation(old(booms[0].rotation), BoomPitch(euler(old(booms[0].rotation))),
                                                MouseMotion(events), dt)
    ensures forall i :: 1 <= i < |booms| ==> booms[i].rotation == old(booms[i].rotation)
    ensures forall i :: 0 <= i < |booms| ==> booms[i].globalMatrix == old(booms[i].globalMatrix)
  {
    hideCursor.hidden := true;
    var motion := CaptureMotion(events);
    if |booms| > 0 {
      var transform := booms[0];
      var pitchDeg := BoomPitch(euler(transform.rotation));
      transform.rotation := BoomRotation(transform.rotation, pitchDeg, motion, dt);
    }
  }
}
