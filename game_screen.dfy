/** The main game screen's frame driver: the per-frame flag sweep over every
    flaggable, the order of the frame's work, and the camera that follows the
    client's player but stays inside the background. */
module Screens {
  import opened Util
  import opened Entity

  /** The work `render` does, in the order it happens. Drawing itself is not
      part of this model; only the fact that a drawing step ran is. */
  datatype Phase = ProcessFlags(flaggable: nat) | ClearGl | DrawGame | DrawUi | FollowCamera

  /** How far the camera's centre stays from the left and right background edges. */
  const HORIZONTAL_BALANCE: real := 400.0
  /** How far the camera's centre stays from the lower and upper background edges. */
  const VERTICAL_BALANCE: real := 240.0

  /** The furthest the camera's centre may go in the positive direction. It is
      non-negative exactly when the background spans at least twice the balance;
      otherwise the two bounds cross. */
  function UpperBound(extent: real, balance: real): (r: real)
    ensures r >= 0.0 <==> extent >= 2.0 * balance
  {
    extent / 2.0 - balance
  }

  /** The furthest the camera's centre may go in the negative direction: always
      the mirror image of the upper bound. */
  function LowerBound(extent: real, balance: real): (r: real)
    ensures r == -UpperBound(extent, balance)
  {
    -(extent / 2.0) + balance
  }

  /** The camera coordinate for a player at `position` on a background `extent`
      wide: the upper bound is tested first, then the lower one. */
  function Clamp(position: real, extent: real, balance: real): (r: real)
    ensures position >= UpperBound(extent, balance) ==> r == UpperBound(extent, balance)
    ensures LowerBound(extent, balance) < position < UpperBound(extent, balance) ==> r == position
    ensures position <= LowerBound(extent, balance) && position < UpperBound(extent, balance) ==>
      r == LowerBound(extent, balance)
    ensures LowerBound(extent, balance) <= UpperBound(extent, balance) ==>
      LowerBound(extent, balance) <= r <= UpperBound(extent, balance)
    ensures UpperBound(extent, balance) < LowerBound(extent, balance) ==>
      r == UpperBound(extent, balance) || r == LowerBound(extent, balance)
  {
    var lower := LowerBound(extent, balance);
    var upper := UpperBound(extent, balance);
    if position >= upper then upper
    else if position <= lower then lower
    else position
  }

  /** The camera's x: the player's x, held between -(width/2 - 400) and
      width/2 - 400. */
  function CameraX(backgroundWidth: real, playerX: real): (r: real)
    ensures var right := backgroundWidth / 2.0 - 400.0;
      && (playerX >= right ==> r == right)
      && (-right < playerX < right ==> r == playerX)
      && (playerX <= -right && playerX < right ==> r == -right)
  {
    Clamp(playerX, backgroundWidth, HORIZONTAL_BALANCE)
  }

  /** The camera's y: the player's y, held between -(height/2 - 240) and
      height/2 - 240. */
  function CameraY(backgroundHeight: real, playerY: real): (r: real)
    ensures var upper := backgroundHeight / 2.0 - 240.0;
      && (playerY >= upper ==> r == upper)
      && (-upper < playerY < upper ==> r == playerY)
      && (playerY <= -upper && playerY < upper ==> r == -upper)
  {
    Clamp(playerY, backgroundHeight, VERTICAL_BALANCE)
  }

  /** On a background at least 800 wide the camera's x stays inside the bounds
      and never moves left when the player moves right. */
  lemma CameraXWithinBounds(backgroundWidth: real, playerX: real, playerX': real)
    requires backgroundWidth >= 800.0
    ensures -(backgroundWidth / 2.0 - 400.0) <= CameraX(backgroundWidth, playerX) <= backgroundWidth / 2.0 - 400.0
    ensures playerX <= playerX' ==> CameraX(backgroundWidth, playerX) <= CameraX(backgroundWidth, playerX')
  {
  }

  /** On a background at least 480 high the camera's y stays inside the bounds
      and never moves down when the player moves up. */
  lemma CameraYWithinBounds(backgroundHeight: real, playerY: real, playerY': real)
    requires backgroundHeight >= 480.0
    ensures -(backgroundHeight / 2.0 - 240.0) <= CameraY(backgroundHeight, playerY) <= backgroundHeight / 2.0 - 240.0
    ensures playerY <= playerY' ==> CameraY(backgroundHeight, playerY) <= CameraY(backgroundHeight, playerY')
  {
  }

  /** On a background narrower than 800 the bounds cross: the camera is pinned
      to one of the two bounds, the right one exactly when the player is at or
      past it, so crossing that bound moves the camera backwards. */
  lemma CameraXCrossedBounds(backgroundWidth: real, playerX: real)
    requires backgroundWidth < 800.0
    ensures var right := backgroundWidth / 2.0 - 400.0;
      && right < -right
      && CameraX(backgroundWidth, playerX) == (if playerX >= right then right else -right)
      && CameraX(backgroundWidth, right - 1.0) > CameraX(backgroundWidth, right)
  {
  }

  /** The steps of one flag sweep: flaggable i is processed i-th. */
  function SweepPhases(count: nat): (phases: seq<Phase>)
    ensures |phases| == count
    ensures forall i | 0 <= i < count :: phases[i] == ProcessFlags(i)
  {
    if count == 0 then [] else SweepPhases(count - 1) + [ProcessFlags(count - 1)]
  }

  /** A sweep processes each registered flaggable exactly once and nothing else. */
  lemma {:induction false} SweepProcessesEachOnce(count: nat, k: nat)
    ensures CountOf(SweepPhases(count), ProcessFlags(k)) == if k < count then 1 else 0
  {
    if count == 0 {
      assert SweepPhases(count) == [];
    } else {
      var before := SweepPhases(count - 1);
      SweepProcessesEachOnce(count - 1, k);
      CountOfSnoc(before, ProcessFlags(count - 1), ProcessFlags(k));
    }
  }

  /** The steps of one frame over `count` flaggables; `following` says whether
      there is a player for the camera to follow. Every flag-processing step
      comes before every drawing and camera step, and the camera moves last. */
  function FramePhases(count: nat, following: bool): (phases: seq<Phase>)
    ensures forall i, j | 0 <= i < |phases| && 0 <= j < |phases| && phases[i].ProcessFlags? && !phases[j].ProcessFlags? ::
      i < j
    ensures following <==> FollowCamera in phases
    ensures following ==> phases[|phases| - 1] == FollowCamera
    ensures ClearGl in phases && DrawGame in phases && DrawUi in phases
  {
    SweepPhases(count) + [ClearGl, DrawGame, DrawUi] + (if following then [FollowCamera] else [])
  }

  /** A frame processes each registered flaggable exactly once. */
  lemma {:induction false} FrameProcessesEachOnce(count: nat, following: bool, k: nat)
    ensures CountOf(FramePhases(count, following), ProcessFlags(k)) == if k < count then 1 else 0
  {
    var rest := [ClearGl, DrawGame, DrawUi] + (if following then [FollowCamera] else []);
    assert FramePhases(count, following) == SweepPhases(count) + rest;
    CountOfAppend(SweepPhases(count), rest, ProcessFlags(k));
    SweepProcessesEachOnce(count, k);
    CountOfAbsent(rest, ProcessFlags(k));
  }

  /** The game screen together with the part of the client's world it drives:
      the pose of every registered flaggable and which of them, if any, is the
      client's player. */
  class GameScreen {
    /** Size of the background sprite. */
    const backgroundWidth: real
    const backgroundHeight: real
    /** The pose of every registered flaggable, in registry order. */
    var flaggables: seq<Pose>
    /** The registry position of the client's player; None while there is none.
        This is the same client-singleton player that `Entity.Client.player`
        stands for, identified here by where it sits in the registry. */
    var player: Option<nat>
    /** Where the camera is centred. */
    var cameraX: real
    var cameraY: real
    /** The steps rendering has performed, oldest first. */
    ghost var phases: seq<Phase>

    /** The client's player, when there is one, is a registered flaggable. */
    ghost predicate Valid()
      reads this
    {
      player.Some? ==> player.value < |flaggables|
    }

    /** The screen over a given background and the camera the caller passes in,
        which keeps whatever position it already has. */
    constructor (backgroundWidth: real, backgroundHeight: real, flaggables: seq<Pose>, player: Option<nat>,
                 cameraX: real, cameraY: real)
      requires player.Some? ==> player.value < |flaggables|
      ensures Valid()
      ensures this.backgroundWidth == backgroundWidth && this.backgroundHeight == backgroundHeight
      ensures this.flaggables == flaggables && this.player == player
      ensures this.cameraX == cameraX && this.cameraY == cameraY && phases == []
    {
      this.backgroundWidth := backgroundWidth;
      this.backgroundHeight := backgroundHeight;
      this.flaggables := flaggables;
      this.player := player;
      this.cameraX, this.cameraY := cameraX, cameraY;
      phases := [];
    }

    /** Runs each flaggable's own flag processing once, in registry order:
        `ticks[i]` is the `processFlags` of flaggable i, which depends on that
        object's own flags and kind. What each step does is not part of this model. */
    method ProcessAllFlags(ticks: seq<Pose -> Pose>)
      requires Valid()
      requires |ticks| == |flaggables|
      modifies this`flaggables, this`phases
      ensures Valid()
      ensures |flaggables| == |old(flaggables)|
      ensures forall i | 0 <= i < |flaggables| :: flaggables[i] == ticks[i](old(flaggables)[i])
      ensures phases == old(phases) + SweepPhases(|flaggables|)
    {
      var i := 0;
      while i < |flaggables|
        invariant 0 <= i <= |flaggables| == |old(flaggables)|
        invariant forall j | 0 <= j < i :: flaggables[j] == ticks[j](old(flaggables)[j])
        invariant forall j | i <= j < |flaggables| :: flaggables[j] == old(flaggables)[j]
        invariant phases == old(phases) + SweepPhases(i)
      {
        flaggables := flaggables[i := ticks[i](flaggables[i])];
        phases := phases + [ProcessFlags(i)];
        i := i + 1;
      }
    }

    /** Clears the screen. */
    method ClearGl()
      modifies this`phases
      ensures phases == old(phases) + [Phase.ClearGl]
    {
      phases := phases + [Phase.ClearGl];
    }

    /** Draws the background, then every visible entity, through the camera. */
    method DrawGameSpriteBatch()
      modifies this`phases
      ensures phases == old(phases) + [DrawGame]
    {
      phases := phases + [DrawGame];
    }

    /** Draws the inventory slots and the other UI assets. */
    method DrawUiSpriteBatch()
      modifies this`phases
      ensures phases == old(phases) + [DrawUi]
    {
      phases := phases + [DrawUi];
    }

    /** Centres the camera on the client's player, clamped to the background;
        does nothing when there is no player. */
    method CameraFollowPlayer()
      requires Valid()
      modifies this`cameraX, this`cameraY, this`phases
      ensures player.None? ==> cameraX == old(cameraX) && cameraY == old(cameraY) && phases == old(phases)
      ensures player.Some? ==>
        && cameraX == CameraX(backgroundWidth, flaggables[player.value].x)
        && cameraY == CameraY(backgroundHeight, flaggables[player.value].y)
        && phases == old(phases) + [FollowCamera]
    {
      if player.Some? {
        var pose := flaggables[player.value];
        cameraX, cameraY := CameraX(backgroundWidth, pose.x), CameraY(backgroundHeight, pose.y);
        phases := phases + [FollowCamera];
      }
    }

    /** One frame: every flaggable is ticked first, then the frame is drawn,
        then the camera follows the player to its position after the tick. */
    method Render(ticks: seq<Pose -> Pose>)
      requires Valid()
      requires |ticks| == |flaggables|
      modifies this`flaggables, this`phases, this`cameraX, this`cameraY
      ensures Valid()
      ensures |flaggables| == |old(flaggables)|
      ensures forall i | 0 <= i < |flaggables| :: flaggables[i] == ticks[i](old(flaggables)[i])
      ensures phases == old(phases) + FramePhases(|flaggables|, player.Some?)
      ensures player.None? ==> cameraX == old(cameraX) && cameraY == old(cameraY)
      ensures player.Some? ==>
        && cameraX == CameraX(backgroundWidth, ticks[player.value](old(flaggables)[player.value]).x)
        && cameraY == CameraY(backgroundHeight, ticks[player.value](old(flaggables)[player.value]).y)
    {
      ProcessAllFlags(ticks);
      ClearGl();
      DrawGameSpriteBatch();
      DrawUiSpriteBatch();
      CameraFollowPlayer();
      assert phases == old(phases) + FramePhases(|flaggables|, player.Some?);
    }
  }
}
