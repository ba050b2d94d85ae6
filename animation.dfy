/**
 * The moving/idle state machine that drives Ralph's animations, and the
 * shape of the command log it produces.
 */
module Animation {

  /** A command sent to the actor's animation controls. */
  datatype AnimCommand =
    | Loop(anim: string, restart: bool)
    | Stop(anim: string)
    | Pose(anim: string, frame: int)

  const RunLoop: AnimCommand := Loop("run", true)
  const RunStop: AnimCommand := Stop("run")
  const WalkPose: AnimCommand := Pose("walk", 5)

  /** The new moving flag and the commands issued in one frame. */
  datatype Transition = Transition(moving: bool, commands: seq<AnimCommand>)

  /**
   * One frame of the state machine: `active` says whether a movement key
   * (forward, left or right) is held. Commands are issued only when the
   * state changes.
   */
  function Animate(moving: bool, active: bool): (t: Transition)
    ensures t.moving == active
    ensures t.commands == [] <==> moving == active
    ensures !moving && active ==> t.commands == [RunLoop]
    ensures moving && !active ==> t.commands == [RunStop, WalkPose]
  {
    if active then
      if !moving then Transition(true, [RunLoop]) else Transition(moving, [])
    else
      if moving then Transition(false, [RunStop, WalkPose]) else Transition(moving, [])
  }

  /** The command expected at position i of a well-formed log. */
  function CycleAt(i: nat): AnimCommand {
    if i % 3 == 0 then RunLoop else if i % 3 == 1 then RunStop else WalkPose
  }

  /** The log is a prefix of loop, stop, pose, loop, stop, pose, ... */
  ghost predicate Alternating(log: seq<AnimCommand>) {
    forall i :: 0 <= i < |log| ==> log[i] == CycleAt(i)
  }

  /**
   * The invariant linking the moving flag to the log: the log alternates,
   * never ends between a stop and its pose, and the flag is set exactly
   * when the last command was a loop.
   */
  ghost predicate AnimInv(moving: bool, log: seq<AnimCommand>) {
    Alternating(log) && |log| % 3 != 2 && (moving <==> |log| % 3 == 1)
  }

  /** Every frame of the state machine keeps the invariant. */
  lemma AnimateKeepsAlternation(moving: bool, active: bool, log: seq<AnimCommand>)
    requires AnimInv(moving, log)
    ensures AnimInv(Animate(moving, active).moving, log + Animate(moving, active).commands)
  {
    var t := Animate(moving, active);
    var log' := log + t.commands;
    forall i | 0 <= i < |log'| ensures log'[i] == CycleAt(i) {
      if i < |log| {
        assert log'[i] == log[i];
      } else if !moving && active {
        assert |log| % 3 == 0 && i == |log|;
      } else {
        assert |log| % 3 == 1 && (i == |log| || i == |log| + 1);
      }
    }
  }
}
