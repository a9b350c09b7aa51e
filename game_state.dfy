/** The `Example` game state: every frame it banks the frame time and, per
    whole 10-second threshold in the bank, spawns one falling cube. */
module GameState {
  import opened Math

  /** Seconds of banked time per spawned cube. */
  const TimeThreshold: real := 10.0
  /** Side of the square, centred on the origin, that cubes spawn over. */
  const SpawnScale: real := 10.0
  const SpawnHeight: real := 6.0

  /** The state transition an update asks for (Amethyst's `Trans`; the
      payloads of `Push` and `Switch` are left out). */
  datatype Trans = None | Pop | Push | Switch | Quit

  /** How many times the drain loop runs on a bank holding `bank` seconds. */
  function SpawnCount(bank: real): (n: nat)
    ensures bank - TimeThreshold * n as real <= TimeThreshold
    ensures bank > TimeThreshold ==> bank - TimeThreshold * n as real > 0.0
    ensures bank <= TimeThreshold ==> n == 0
    decreases bank.Floor
  {
    if bank > TimeThreshold then 1 + SpawnCount(bank - TimeThreshold) else 0
  }

  /** The loop stops at the first threshold it cannot pass: before the last
      spawn the bank was always above the threshold. */
  lemma {:induction false} SpawnCountIsFirstStop(bank: real, m: nat)
    requires m < SpawnCount(bank)
    ensures bank - TimeThreshold * m as real > TimeThreshold
    decreases bank.Floor
  {
    if m > 0 {
      SpawnCountIsFirstStop(bank - TimeThreshold, m - 1);
    }
  }

  /** The spawn count is the only number of drain steps that leaves the bank
      at or below the threshold while every step started above it (so a
      non-final step leaves a positive bank). */
  lemma {:induction false} SpawnCountUnique(bank: real, steps: nat)
    requires bank - TimeThreshold * steps as real <= TimeThreshold
    requires steps > 0 ==> bank - TimeThreshold * steps as real > 0.0
    ensures SpawnCount(bank) == steps
    decreases steps
  {
    if steps > 0 {
      SpawnCountUnique(bank - TimeThreshold, steps - 1);
    }
  }

  /** What is left in the bank after the drain. */
  function Remainder(bank: real): (r: real)
    ensures r <= TimeThreshold
    ensures bank > TimeThreshold ==> r > 0.0
  {
    bank - TimeThreshold * SpawnCount(bank) as real
  }

  /** A bank that is not negative drains into [0, 10]; in particular one
      started in [0, 10] with a non-negative frame delta stays there. */
  lemma RemainderInRange(bank: real)
    requires bank >= 0.0
    ensures 0.0 <= Remainder(bank) <= TimeThreshold
  {
  }

  lemma BankStaysInRange(timeBank: real, delta: real)
    requires 0.0 <= timeBank <= TimeThreshold && delta >= 0.0
    ensures 0.0 <= Remainder(timeBank + delta) <= TimeThreshold
  {
    RemainderInRange(timeBank + delta);
  }

  /** Where a cube spawns from two random draws. */
  function CubePosition(r1: real, r2: real): Vec3
  {
    Vec3(r1 * SpawnScale - SpawnScale * 0.5, SpawnHeight, r2 * SpawnScale - SpawnScale * 0.5)
  }

  /** Draws in [0, 1) put the cube over [-5, 5) x [-5, 5), 6 units up. */
  lemma CubePositionBounds(r1: real, r2: real)
    requires 0.0 <= r1 < 1.0 && 0.0 <= r2 < 1.0
    ensures var p := CubePosition(r1, r2);
      -5.0 <= p.x < 5.0 && p.y == 6.0 && -5.0 <= p.z < 5.0
  {
  }

  /** A bank at or below the threshold spawns nothing and is left as is. */
  lemma NoSpawnAtOrBelowThreshold(bank: real)
    requires bank <= TimeThreshold
    ensures SpawnCount(bank) == 0 && Remainder(bank) == bank
  {
  }

  /** The drain test is strict: a bank on a multiple of the threshold keeps
      one full threshold back. */
  lemma DrainAtMultiples()
    ensures SpawnCount(10.0) == 0 && Remainder(10.0) == 10.0
    ensures SpawnCount(20.0) == 1 && Remainder(20.0) == 10.0
    ensures SpawnCount(25.0) == 2 && Remainder(25.0) == 5.0
  {
    SpawnCountUnique(20.0, 1);
    SpawnCountUnique(25.0, 2);
  }

  /** The colour of a cube's material (`LinSrgba`). */
  datatype Colour = Colour(red: real, green: real, blue: real, alpha: real)

  /** A spawned cube as the world records it: where it starts and its colour. */
  datatype Cube = Cube(position: Vec3, colour: Colour)

  /** The generator behind `rand::thread_rng()`. Every handle taken on the
      thread shares it, so the draws of `update` and of the cube's colour
      come from one stream: `stream(k)` is its k-th value and `drawn` counts
      the values taken so far. */
  class ThreadRng {
    const stream: nat -> real
    var drawn: nat

    constructor (stream: nat -> real)
      ensures this.stream == stream && drawn == 0
    {
      this.stream := stream;
      drawn := 0;
    }

    /** `rng.gen::<f32>()`: the next value of the stream. */
    method Gen() returns (r: real)
      modifies this
      ensures r == stream(old(drawn)) && drawn == old(drawn) + 1
    {
      r := stream(drawn);
      drawn := drawn + 1;
    }
  }

  /** The opaque colour whose channels are the three draws from `d` on. */
  function ColourAt(stream: nat -> real, d: nat): Colour
  {
    Colour(stream(d), stream(d + 1), stream(d + 2), 1.0)
  }

  /** The cube whose five draws start at `d`: x and z of its position
      first, then red, green and blue. */
  function CubeFrom(stream: nat -> real, d: nat): Cube
  {
    Cube(CubePosition(stream(d), stream(d + 1)), ColourAt(stream, d + 2))
  }

  /** Cube k of an update whose first draw is `start`. */
  function CubeAt(stream: nat -> real, start: nat, k: nat): Cube
  {
    CubeFrom(stream, start + 5 * k)
  }

  /** The first `n` cubes spawned from the draw `start` on. */
  function SpawnedCubes(stream: nat -> real, start: nat, n: nat): (cubes: seq<Cube>)
    ensures |cubes| == n
  {
    seq(n, (k: nat) => CubeAt(stream, start, k))
  }

  /** A sequence whose k-th element is cube k is the spawned sequence. */
  lemma SpawnedCubesByIndex(stream: nat -> real, start: nat, cubes: seq<Cube>)
    requires forall k :: 0 <= k < |cubes| ==> cubes[k] == CubeAt(stream, start, k)
    ensures cubes == SpawnedCubes(stream, start, |cubes|)
  {
  }

  /** Every spawned cube lies over [-5, 5) x [-5, 5) at height 6 when the
      generator yields values in [0, 1). */
  lemma SpawnedCubesInBounds(stream: nat -> real, start: nat, n: nat)
    requires forall k: nat :: 0.0 <= stream(k) < 1.0
    ensures forall i :: 0 <= i < n ==>
      var p := SpawnedCubes(stream, start, n)[i].position;
      -5.0 <= p.x < 5.0 && p.y == 6.0 && -5.0 <= p.z < 5.0
  {
    forall i | 0 <= i < n
      ensures var p := SpawnedCubes(stream, start, n)[i].position;
        -5.0 <= p.x < 5.0 && p.y == 6.0 && -5.0 <= p.z < 5.0
    {
      var d := start + 5 * i;
      CubePositionBounds(stream(d), stream(d + 1));
    }
  }

  /** The cubes the world holds, in creation order. */
  class CubeWorld {
    var cubes: seq<Cube>

    constructor ()
      ensures cubes == []
    {
      cubes := [];
    }

    /** `add_cube_entity`: draws the three colour channels from the thread
        generator and adds a cube at `position` with that colour. */
    method AddCubeEntity(position: Vec3, rng: ThreadRng)
      modifies this, rng
      ensures rng.drawn == old(rng.drawn) + 3
      ensures cubes == old(cubes) + [Cube(position, ColourAt(rng.stream, old(rng.drawn)))]
    {
      var red := rng.Gen();
      var green := rng.Gen();
      var blue := rng.Gen();
      cubes := cubes + [Cube(position, Colour(red, green, blue, 1.0))];
    }
  }

  /** The body of the spawn loop: `add_cube_entity` at a position drawn as
      `rng.gen() * 10 - 5` for x, then for z, at height 6. */
  method SpawnRandomCube(world: CubeWorld, rng: ThreadRng)
    modifies world, rng
    ensures rng.drawn == old(rng.drawn) + 5
    ensures world.cubes == old(world.cubes) + [CubeFrom(rng.stream, old(rng.drawn))]
  {
    var x := rng.Gen();
    x := x * SpawnScale - SpawnScale * 0.5;
    var z := rng.Gen();
    z := z * SpawnScale - SpawnScale * 0.5;
    world.AddCubeEntity(Vec3(x, SpawnHeight, z), rng);
  }

  class Example {
    var timeBank: real

    constructor ()
      ensures timeBank == 0.0
    {
      timeBank := 0.0;
    }

    /** One frame: bank the frame delta, then spawn one cube and take 10
        seconds out for every threshold the bank is above. */
    method Update(world: CubeWorld, delta: real, rng: ThreadRng) returns (trans: Trans)
      modifies this, world, rng
      ensures var bank := old(timeBank) + delta;
        && timeBank == Remainder(bank)
        && world.cubes == old(world.cubes) + SpawnedCubes(rng.stream, old(rng.drawn), SpawnCount(bank))
        && rng.drawn == old(rng.drawn) + 5 * SpawnCount(bank)
        && timeBank <= TimeThreshold
        && bank - timeBank == TimeThreshold * (|world.cubes| - |old(world.cubes)|) as real
      ensures trans == None
    {
      timeBank := timeBank + delta;
      ghost var bank := timeBank;
      ghost var start := rng.drawn;
      ghost var spawned: nat := 0;
      ghost var made: seq<Cube> := [];
      while timeBank > TimeThreshold
        invariant timeBank == bank - TimeThreshold * spawned as real
        invariant spawned > 0 ==> timeBank > 0.0
        invariant rng.drawn == start + 5 * spawned
        invariant world.cubes == old(world.cubes) + made
        invariant |made| == spawned
        invariant forall k :: 0 <= k < spawned ==> made[k] == CubeAt(rng.stream, start, k)
        decreases timeBank.Floor
      {
        ghost var d := rng.drawn;
        SpawnRandomCube(world, rng);
        made := made + [CubeFrom(rng.stream, d)];
        spawned := spawned + 1;
        timeBank := timeBank - TimeThreshold;
      }
      SpawnCountUnique(bank, spawned);
      SpawnedCubesByIndex(rng.stream, start, made);
      trans := None;
    }
  }
}
