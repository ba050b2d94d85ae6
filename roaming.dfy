/**
 * The per-frame character controller of Roaming Ralph: the key-state
 * table, the moving/idle state machine, the ground clamp with its
 * commit-or-rollback, and the camera rules.
 *
 * The engine's work is supplied as inputs: the frame time, the world-space
 * displacements the engine computes for the local-axis translations, the
 * planar camera distance, and the two ground rays' hits sorted nearest first.
 */
module Roaming {
  import opened Geometry
  import opened Animation
  import opened Ground
  import opened Camera

  /** Indices into the key table. */
  const LeftKey: nat := 0
  const RightKey: nat := 1
  const ForwardKey: nat := 2
  const CamLeftKey: nat := 3
  const CamRightKey: nat := 4
  const KeyCount: nat := 5

  
  /** The controller's state between frames. */
  datatype State = State(
    keys: seq<bool>,
    moving: bool,
    ralph: Vec3,
    heading: real,
    cam: Vec3,
    floater: Vec3)

  /** What the engine supplies for one frame. */
  datatype FrameInput = FrameInput(
    dt: real,
    camLeftShift: Vec3,   // the camera's own x-axis step of -20*dt, in world space
    camRightShift: Vec3,  // the camera's own x-axis step of +20*dt, in world space
    forwardShift: Vec3,   // Ralph's own y-axis step of -25*dt, in world space (his model is scaled by 0.2, so 5*dt long)
    camDist: real,        // planar length of the camera-to-Ralph vector before the clamp
    ralphHits: seq<Hit>,  // the ray above Ralph, nearest first
    camHits: seq<Hit>)    // the ray above the camera, nearest first

  /** The state after a frame and the animation commands it issued. */
  datatype FrameResult = FrameResult(state: State, commands: seq<AnimCommand>)

  predicate WellFormed(s: State) {
    |s.keys| == KeyCount
  }

  /** A movement key (forward, left or right) is held. */
  predicate MovementKeyDown(keys: seq<bool>)
    requires |keys| == KeyCount
  {
    keys[ForwardKey] || keys[LeftKey] || keys[RightKey]
  }

  /** The state right after construction, with Ralph at the model's start point. */
  function Initial(start: Vec3, heading: real): (s: State)
    ensures WellFormed(s)
    ensures forall k :: 0 <= k < KeyCount ==> !s.keys[k]
    ensures !s.moving
    ensures s.ralph == start && s.heading == heading
    ensures s.cam == Vec3(start.x, start.y + 10.0, 2.0)
  {
    State(seq(KeyCount, _ => false), false, start, heading, Vec3(start.x, start.y + 10.0, 2.0), Vec3(0.0, 0.0, 0.0))
  }

  /** Ralph's heading after the turn keys: left adds, right subtracts. */
  function Turn(heading: real, left: bool, right: bool, dt: real): (h: real)
    ensures left == right ==> h == heading
    ensures left && !right ==> h == heading + 300.0 * dt
    ensures !left && right ==> h == heading - 300.0 * dt
  {
    var h1 := if left then heading + 300.0 * dt else heading;
    if right then h1 - 300.0 * dt else h1
  }

  /** The camera after the orbit keys. */
  function Orbited(s: State, f: FrameInput): Vec3
    requires WellFormed(s)
  {
    var c := if s.keys[CamLeftKey] then Add(s.cam, f.camLeftShift) else s.cam;
    if s.keys[CamRightKey] then Add(c, f.camRightShift) else c
  }

  /** Ralph's position after the forward key, before the ground check. */
  function Candidate(s: State, f: FrameInput): Vec3
    requires WellFormed(s)
  {
    if s.keys[ForwardKey] then Add(s.ralph, f.forwardShift) else s.ralph
  }

  /** The engine's camDist is the planar distance it measures, and it is not zero. */
  predicate Measured(s: State, f: FrameInput)
    requires WellFormed(s)
  {
    f.camDist > 0.0 && Square(f.camDist) == PlanarSq(Candidate(s, f), Orbited(s, f))
  }

  /** One call of the per-frame task, as a function of the state and the engine's inputs. */
  function Step(s: State, f: FrameInput): (r: FrameResult)
    requires WellFormed(s) && f.camDist > 0.0
    ensures WellFormed(r.state) && r.state.keys == s.keys
    ensures r.state.moving == MovementKeyDown(s.keys)
    ensures r.commands == [] <==> r.state.moving == s.moving
    ensures r.state.moving == Animate(s.moving, MovementKeyDown(s.keys)).moving
    ensures r.commands == Animate(s.moving, MovementKeyDown(s.keys)).commands
    ensures r.state.heading == Turn(s.heading, s.keys[LeftKey], s.keys[RightKey], f.dt)
    ensures NearestIsTerrain(f.ralphHits) ==>
              r.state.ralph == WithZ(Candidate(s, f), f.ralphHits[0].z)
    ensures !NearestIsTerrain(f.ralphHits) ==> r.state.ralph == s.ralph
    ensures r.state.cam.x == ClampDistance(Candidate(s, f), Orbited(s, f), f.camDist).x
    ensures r.state.cam.y == ClampDistance(Candidate(s, f), Orbited(s, f), f.camDist).y
    ensures r.state.cam.z == CameraHeight(Orbited(s, f).z, r.state.ralph.z, f.camHits)
    ensures r.state.cam.z >= r.state.ralph.z + 2.0
    ensures r.state.floater == Vec3(r.state.ralph.x, r.state.ralph.y, r.state.ralph.z + 2.0)
  {
    var cam := Orbited(s, f);
    var heading := Turn(s.heading, s.keys[LeftKey], s.keys[RightKey], f.dt);
    var candidate := Candidate(s, f);
    var t := Animate(s.moving, MovementKeyDown(s.keys));
    var clamped := ClampDistance(candidate, cam, f.camDist);
    var ralph := GroundRalph(candidate, s.ralph, f.ralphHits);
    var camZ := CameraHeight(clamped.z, ralph.z, f.camHits);
    FrameResult(
      State(s.keys, t.moving, ralph, heading, WithZ(clamped, camZ), WithZ(ralph, ralph.z + 2.0)),
      t.commands)
  }

  /** With the keys unchanged, the frame after a frame issues no animation command. */
  lemma StepSettles(s: State, f: FrameInput, g: FrameInput)
    requires WellFormed(s) && f.camDist > 0.0 && g.camDist > 0.0
    ensures Step(Step(s, f).state, g).commands == []
  {
  }

  /** Every frame of a run has a positive camera distance. */
  predicate Positive(frames: seq<FrameInput>) {
    forall i :: 0 <= i < |frames| ==> frames[i].camDist > 0.0
  }

  /**
   * The task called once per frame while it keeps asking to continue: the
   * state after the frames and every animation command they issued, in order.
   */
  function Run(s: State, frames: seq<FrameInput>): (r: FrameResult)
    requires WellFormed(s) && Positive(frames)
    ensures WellFormed(r.state) && r.state.keys == s.keys
    ensures |frames| > 0 ==> r.state.moving == MovementKeyDown(s.keys)
    decreases |frames|
  {
    if frames == [] then FrameResult(s, [])
    else
      var first := Step(s, frames[0]);
      var rest := Run(first.state, frames[1..]);
      FrameResult(rest.state, first.commands + rest.commands)
  }

  /**
   * Over any run of frames the commands sent to the actor keep alternating
   * loop "run", stop "run", pose "walk", and the moving flag still says
   * whether the last of them was a loop.
   */
  lemma {:induction false} RunKeepsAlternation(s: State, frames: seq<FrameInput>, log: seq<AnimCommand>)
    requires WellFormed(s) && Positive(frames) && AnimInv(s.moving, log)
    ensures AnimInv(Run(s, frames).state.moving, log + Run(s, frames).commands)
    decreases |frames|
  {
    if frames != [] {
      var first := Step(s, frames[0]);
      AnimateKeepsAlternation(s.moving, MovementKeyDown(s.keys), log);
      RunKeepsAlternation(first.state, frames[1..], log + first.commands);
      var rest := Run(first.state, frames[1..]);
      assert log + first.commands + rest.commands == log + (first.commands + rest.commands);
    }
  }

  /** While the keys stay as they are, a run issues at most the one transition its first frame makes. */
  lemma {:induction false} RunSettles(s: State, frames: seq<FrameInput>)
    requires WellFormed(s) && Positive(frames)
    ensures Run(s, frames).commands == Animate(s.moving, MovementKeyDown(s.keys)).commands || frames == []
    ensures |Run(s, frames).commands| <= 2
    decreases |frames|
  {
    if frames != [] {
      var first := Step(s, frames[0]);
      if |frames| > 1 {
        RunSettles(first.state, frames[1..]);
        assert Run(first.state, frames[1..]).commands == [];
      }
    }
  }

  /**
   * The dead band holds against the position Ralph was moved to, whatever
   * the ground check then decides.
   */
  lemma FrameDistanceToCandidate(s: State, f: FrameInput)
    requires WellFormed(s) && Measured(s, f)
    ensures PlanarSq(Candidate(s, f), Step(s, f).state.cam) == Band(f.camDist) * Band(f.camDist)
  {
    var c := ClampDistance(Candidate(s, f), Orbited(s, f), f.camDist);
    ClampDistanceBand(Candidate(s, f), Orbited(s, f), f.camDist);
    PlanarSqIgnoresHeight(Candidate(s, f), Step(s, f).state.cam, Candidate(s, f), c);
  }

  /** When the move is committed, the camera ends the frame between 5 and 10 units from Ralph. */
  lemma FrameDistanceAfterCommit(s: State, f: FrameInput)
    requires WellFormed(s) && Measured(s, f) && NearestIsTerrain(f.ralphHits)
    ensures 25.0 <= PlanarSq(Step(s, f).state.ralph, Step(s, f).state.cam) <= 100.0
  {
    var r := Step(s, f).state;
    var c := ClampDistance(Candidate(s, f), Orbited(s, f), f.camDist);
    ClampDistanceBand(Candidate(s, f), Orbited(s, f), f.camDist);
    PlanarSqIgnoresHeight(r.ralph, r.cam, Candidate(s, f), c);
  }

  /** When the move is rolled back, the camera keeps the correction it made against the candidate position. */
  lemma RollbackDistance(s: State, f: FrameInput)
    requires WellFormed(s) && f.camDist > 0.0 && !NearestIsTerrain(f.ralphHits)
    ensures PlanarSq(Step(s, f).state.ralph, Step(s, f).state.cam)
         == PlanarSq(s.ralph, ClampDistance(Candidate(s, f), Orbited(s, f), f.camDist))
  {
    var r := Step(s, f).state;
    PlanarSqIgnoresHeight(r.ralph, r.cam, s.ralph, ClampDistance(Candidate(s, f), Orbited(s, f), f.camDist));
  }

  /** A legal frame whose move is rolled back and whose camera ends more than 10 units from Ralph. */
  ghost predicate RolledBackOutsideBand(s: State, f: FrameInput) {
    && WellFormed(s) && Measured(s, f) && !NearestIsTerrain(f.ralphHits)
    && PlanarSq(Step(s, f).state.ralph, Step(s, f).state.cam) > 100.0
  }

  /** The camera 35 units from the candidate position is pulled 25 units toward it. */
  lemma PullExample()
    ensures ClampDistance(Vec3(0.0, -25.0, 0.0), Vec3(0.0, 10.0, 2.0), 35.0) == Vec3(0.0, -15.0, 2.0)
  {
    TowardExample();
  }

  lemma TowardExample()
    ensures Toward(Vec3(0.0, 10.0, 2.0), Vec3(0.0, -25.0, 0.0), 35.0) == Vec3(0.0, -1.0, 0.0)
  {
    assert Toward(Vec3(0.0, 10.0, 2.0), Vec3(0.0, -25.0, 0.0), 35.0).x == 0.0;
  }

  /**
   * When the move is rolled back, the band is not restored: Ralph runs 25
   * units, the camera follows to 10 units behind the candidate, a rock
   * stops him, and the camera ends 15 units away.
   */
  lemma RollbackCanLeaveBand()
    ensures RolledBackOutsideBand(RockState, RockFrame)
  {
    RockFrameMeasured();
    RockFrameRollsBack();
  }

  /** The rock frame's measured distance matches its geometry, and no terrain lies under Ralph. */
  lemma RockFrameMeasured()
    ensures Measured(RockState, RockFrame) && !NearestIsTerrain(RockFrame.ralphHits)
  {
    var s, f := RockState, RockFrame;
    assert Candidate(s, f) == Vec3(0.0, -25.0, 0.0) && Orbited(s, f) == Vec3(0.0, 10.0, 2.0);
    PlanarExample();
    assert Square(35.0) == 35.0 * 35.0;
  }

  /** After the rock frame, Ralph is back at the origin and the camera 15 units from him. */
  lemma RockFrameRollsBack()
    ensures PlanarSq(Step(RockState, RockFrame).state.ralph, Step(RockState, RockFrame).state.cam) == 225.0
  {
    assert Candidate(RockState, RockFrame) == Vec3(0.0, -25.0, 0.0);
    assert Orbited(RockState, RockFrame) == Vec3(0.0, 10.0, 2.0);
    RollbackFromOrigin(RockState, RockFrame);
  }

  /** A rolled-back frame from the origin that pulls the camera to 15 units of the rejected candidate. */
  lemma RollbackFromOrigin(s: State, f: FrameInput)
    requires WellFormed(s) && f.camDist == 35.0 && !NearestIsTerrain(f.ralphHits)
    requires s.ralph == Vec3(0.0, 0.0, 0.0)
    requires Candidate(s, f) == Vec3(0.0, -25.0, 0.0) && Orbited(s, f) == Vec3(0.0, 10.0, 2.0)
    ensures PlanarSq(Step(s, f).state.ralph, Step(s, f).state.cam) == 225.0
  {
    PullExample();
    RollbackDistance(s, f);
    PlanarExample();
  }

  /** Ralph at the origin runs forward 25 units, the camera 10 units behind him. */
  const RockState: State :=
    State([false, false, true, false, false], false, Vec3(0.0, 0.0, 0.0), 0.0, Vec3(0.0, 10.0, 2.0), Vec3(0.0, 0.0, 0.0))

  /** The engine measures 35 units to the candidate position, and the ray under Ralph hits a rock. */
  const RockFrame: FrameInput :=
    FrameInput(5.0, Vec3(0.0, 0.0, 0.0), Vec3(0.0, 0.0, 0.0), Vec3(0.0, -25.0, 0.0), 35.0, [Hit("rock", 1.0)], [])

  lemma PlanarExample()
    ensures PlanarSq(Vec3(0.0, -25.0, 0.0), Vec3(0.0, 10.0, 2.0)) == 35.0 * 35.0
    ensures PlanarSq(Vec3(0.0, 0.0, 0.0), Vec3(0.0, -15.0, 2.0)) == 225.0
  {
  }

  /** Whether the scheduler keeps the task alive. */
  datatype TaskStatus = Done | Continue

  /** The controller object: the key table, the moving flag, and the transforms it writes each frame. */
  class World {
    var keyMap: seq<bool>
    var isMoving: bool
    var ralphPos: Vec3
    var ralphHeading: real
    var camPos: Vec3
    var floaterPos: Vec3
    /** The animation commands sent to Ralph's actor so far. */
    var anims: seq<AnimCommand>

    ghost predicate Valid()
      reads this
    {
      |keyMap| == KeyCount && AnimInv(isMoving, anims)
    }

    ghost function Model(): State
      reads this
    {
      State(keyMap, isMoving, ralphPos, ralphHeading, camPos, floaterPos)
    }

    /** Ralph starts at the environment's start point; the camera 10 units behind him at height 2. */
    constructor(startPos: Vec3, startHeading: real)
      ensures Valid()
      ensures Model() == Initial(startPos, startHeading)
      ensures anims == []
    {
      keyMap := [false, false, false, false, false];
      isMoving := false;
      ralphPos := startPos;
      ralphHeading := startHeading;
      camPos := Vec3(startPos.x, startPos.y + 10.0, 2.0);
      floaterPos := Vec3(0.0, 0.0, 0.0);
      anims := [];
    }

    /** Records the state of one key. */
    method SetKey(key: nat, value: bool)
      requires Valid() && key < KeyCount
      modifies this`keyMap
      ensures Valid()
      ensures |keyMap| == KeyCount && keyMap[key] == value
      ensures forall k :: 0 <= k < KeyCount && k != key ==> keyMap[k] == old(keyMap[k])
    {
      keyMap := keyMap[key := value];
    }

    /** One frame: orbit the camera, turn and move Ralph, animate, frame the camera, clamp to the ground. */
    method Move(f: FrameInput)
      requires Valid() && f.camDist > 0.0
      modifies this
      ensures Valid()
      ensures Model() == Step(old(Model()), f).state
      ensures anims == old(anims) + Step(old(Model()), f).commands
    {
      OrbitCamera(f);
      // the position to restore if the move is illegal
      var startPos := ralphPos;
      TurnAndRun(f);
      UpdateRunAnimation();
      KeepCameraInBand(f.camDist);
      SettleOnTerrain(startPos, f.ralphHits);
      LiftCamera(f.camHits);
      PlaceFloater();
    }

    /** The camera-left and camera-right keys move the camera sideways along its own x axis. */
    method OrbitCamera(f: FrameInput)
      requires |keyMap| == KeyCount
      modifies this`camPos
      ensures camPos == Orbited(old(Model()), f)
    {
      if keyMap[CamLeftKey] {
        camPos := Add(camPos, f.camLeftShift);
      }
      if keyMap[CamRightKey] {
        camPos := Add(camPos, f.camRightShift);
      }
    }

    /** The left and right keys turn Ralph; the forward key moves him along his own y axis. */
    method TurnAndRun(f: FrameInput)
      requires |keyMap| == KeyCount
      modifies this`ralphHeading, this`ralphPos
      ensures ralphHeading == Turn(old(ralphHeading), keyMap[LeftKey], keyMap[RightKey], f.dt)
      ensures ralphPos == Candidate(old(Model()), f)
    {
      if keyMap[LeftKey] {
        ralphHeading := ralphHeading + 300.0 * f.dt;
      }
      if keyMap[RightKey] {
        ralphHeading := ralphHeading - 300.0 * f.dt;
      }
      if keyMap[ForwardKey] {
        ralphPos := Add(ralphPos, f.forwardShift);
      }
    }

    /** Loop "run" when Ralph starts moving; stop it and pose "walk" at frame 5 when he stops. */
    method UpdateRunAnimation()
      requires Valid()
      modifies this`isMoving, this`anims
      ensures Valid()
      ensures isMoving == Animate(old(isMoving), MovementKeyDown(keyMap)).moving
      ensures anims == old(anims) + Animate(old(isMoving), MovementKeyDown(keyMap)).commands
    {
      AnimateKeepsAlternation(isMoving, MovementKeyDown(keyMap), anims);
      if keyMap[ForwardKey] || keyMap[LeftKey] || keyMap[RightKey] {
        if !isMoving {
          anims := anims + [RunLoop];
          isMoving := true;
        }
      } else {
        if isMoving {
          anims := anims + [RunStop];
          anims := anims + [WalkPose];
          isMoving := false;
        }
      }
    }

    /** The dead-band correction of the camera's distance; camDist is the engine's planar length of the camera-to-Ralph vector. */
    method KeepCameraInBand(camDist: real)
      requires camDist > 0.0
      modifies this`camPos
      ensures camPos == ClampDistance(ralphPos, old(camPos), camDist)
    {
      var camVec := Vec3(ralphPos.x - camPos.x, ralphPos.y - camPos.y, 0.0);
      var dist := camDist;
      camVec := Scale(camVec, 1.0 / dist);
      if dist > 10.0 {
        camPos := Add(camPos, Scale(camVec, dist - 10.0));
        dist := 10.0;
      }
      if dist < 5.0 {
        camPos := Sub(camPos, Scale(camVec, 5.0 - dist));
        dist := 5.0;
      }
    }

    /** On terrain Ralph stands on the surface; otherwise he goes back to startPos. */
    method SettleOnTerrain(startPos: Vec3, hits: seq<Hit>)
      modifies this`ralphPos
      ensures ralphPos == GroundRalph(old(ralphPos), startPos, hits)
    {
      if NearestIsTerrain(hits) {
        ralphPos := WithZ(ralphPos, hits[0].z);
      } else {
        ralphPos := startPos;
      }
    }

    /** One unit above the terrain under the camera, or two above Ralph, whichever is higher. */
    method LiftCamera(hits: seq<Hit>)
      modifies this`camPos
      ensures camPos == WithZ(old(camPos), CameraHeight(old(camPos).z, ralphPos.z, hits))
    {
      if NearestIsTerrain(hits) {
        camPos := WithZ(camPos, hits[0].z + 1.0);
      }
      if camPos.z < ralphPos.z + 2.0 {
        camPos := WithZ(camPos, ralphPos.z + 2.0);
      }
    }

    /** The floater the camera looks at hovers two units above Ralph. */
    method PlaceFloater()
      modifies this`floaterPos
      ensures floaterPos == Vec3(ralphPos.x, ralphPos.y, ralphPos.z + 2.0)
    {
      floaterPos := ralphPos;
      floaterPos := WithZ(floaterPos, ralphPos.z + 2.0);
    }

    /**
     * The key event adapter: world is the object registered with the
     * event; a missing object or a key outside the table changes nothing.
     */
    static method CallSetKey(world: World?, key: int, value: bool)
      requires world != null ==> world.Valid()
      modifies world
      ensures world != null ==> world.Valid()
      ensures world != null && 0 <= key < KeyCount ==> world.keyMap == old(world.keyMap)[key := value]
      ensures world != null && !(0 <= key < KeyCount) ==> world.keyMap == old(world.keyMap)
      ensures world != null ==> world.Model() == old(world.Model()).(keys := world.keyMap)
      ensures world != null ==> world.anims == old(world.anims)
    {
      if world == null {
        return;
      }
      if key < 0 || key >= KeyCount {
        return;
      }
      world.SetKey(key, value);
    }

    /** The per-frame task: a missing object ends the task, otherwise one frame runs and the task continues. */
    static method CallMove(world: World?, f: FrameInput) returns (status: TaskStatus)
      requires world != null ==> world.Valid() && f.camDist > 0.0
      modifies world
      ensures status == (if world == null then Done else Continue)
      ensures world != null ==> world.Valid()
      ensures world != null ==> world.Model() == Step(old(world.Model()), f).state
      ensures world != null ==> world.anims == old(world.anims) + Step(old(world.Model()), f).commands
    {
      if world == null {
        return Done;
      }
      world.Move(f);
      return Continue;
    }
  }
}
