/** One character sprite on the office map with its name label. */
module GamePlayer {
  import opened Protocol
  import Constants

  /** The name label: names of fewer than five characters verbatim, longer
      ones cut to four characters and "..". */
  function Label(name: string): (r: string)
    ensures |r| <= 6
    ensures |name| < 5 ==> r == name
    ensures |name| >= 5 ==> |r| == 6 && r[..4] == name[..4] && r[4..] == ".."
  {
    if |name| < 5 then name else name[..4] + ".."
  }

  /** A label is shown unchanged when labelled again, and it differs from the
      name exactly when the name was cut. */
  lemma LabelIsStable(name: string)
    ensures Label(Label(name)) == Label(name)
    ensures Label(name) == name <==> |name| < 5 || (|name| == 6 && name[4..] == "..")
  {
    if |name| >= 5 {
      assert Label(name)[..4] == name[..4];
      if |name| == 6 && name[4..] == ".." {
        assert name == name[..4] + name[4..];
      }
    }
  }

  /** Speed on one axis for a movement input: its sign, at 100 px/s. */
  function Velocity(v: int): (r: int)
    ensures r == 0 || r == 100 || r == -100
    ensures r > 0 <==> v > 0
    ensures r < 0 <==> v < 0
  {
    if v != 0 && v > 0 then 100
    else if v != 0 && v < 0 then -100
    else 0
  }

  /** The walking animations of the sprite sheet, by their keys "right",
      "up", "left" and "down". */
  datatype Animation = Right | Up | Left | Down

  /** The frame `stop` shows for the animation that was playing. */
  function StopFrame(anim: Option<Animation>, frame: nat): (r: nat)
    ensures anim == Some(Right) ==> r == 0
    ensures anim == Some(Left) ==> r == 12
    ensures anim == Some(Down) ==> r == 18
    ensures anim == Some(Up) ==> r == 6
    ensures anim.None? ==> r == frame
  {
    match anim
    case Some(Right) => 0
    case Some(Left) => 12
    case Some(Down) => 18
    case Some(Up) => 6
    case None => frame
  }

  class Player {
    const id: SocketId
    /** Sprite position (top-left corner) and velocity. */
    var x: real
    var y: real
    var vx: int
    var vy: int
    /** Animation last played, whether it is playing, and the frame shown. */
    var anim: Option<Animation>
    var playing: bool
    var frame: nat
    /** The name label and its position. */
    const nameLabel: string
    var labelX: real
    var labelY: real
    /** Collision box of the sprite. */
    const hitboxWidth: real
    const hitboxHeight: real
    const hitboxOffsetY: real
    var destroyed: bool
    /** Time (ms) of the last keyboard move, if one is recent. */
    var lastMoved: Option<int>

    constructor (id: SocketId, name: string, x: real, y: real)
      ensures this.id == id && this.x == x && this.y == y
      ensures nameLabel == Label(name) && labelX == x && labelY == y
      ensures vx == 0 && vy == 0 && anim == None && !playing && frame == 0
      ensures hitboxWidth == Constants.PlayerWidth
      ensures hitboxHeight == Constants.HitboxHeight()
      ensures hitboxOffsetY == Constants.HitboxOffsetY()
      ensures hitboxOffsetY + hitboxHeight == Constants.PlayerHeight
      ensures !destroyed && lastMoved == None
    {
      this.id := id;
      this.x, this.y := x, y;
      nameLabel := Label(name);
      labelX, labelY := x, y;
      vx, vy := 0, 0;
      anim, playing, frame := None, false, 0;
      hitboxWidth := Constants.PlayerWidth;
      hitboxHeight := Constants.HitboxHeight();
      hitboxOffsetY := Constants.HitboxOffsetY();
      destroyed, lastMoved := false, None;
    }

    /** `move`: set the velocity from the input, play the animation, and
        bring the label to the sprite. */
    method Move(dx: int, dy: int, animation: Animation)
      modifies this`vx, this`vy, this`anim, this`playing, this`labelX, this`labelY
      ensures vx == Velocity(dx) && vy == Velocity(dy)
      ensures anim == Some(animation) && playing
      ensures labelX == x && labelY == y
    {
      vx := Velocity(dx);
      vy := Velocity(dy);
      anim, playing := Some(animation), true;
      labelX, labelY := x, y;
    }

    /** `stop`: halt, show the resting frame of the animation, stop it. */
    method Stop()
      modifies this`vx, this`vy, this`frame, this`playing
      ensures vx == 0 && vy == 0 && !playing
      ensures frame == StopFrame(anim, old(frame))
    {
      vx, vy := 0, 0;
      frame := StopFrame(anim, frame);
      playing := false;
    }

    /** Destroy the sprite and its label. */
    method Destroy()
      modifies this`destroyed
      ensures destroyed
    {
      destroyed := true;
    }
  }
}
