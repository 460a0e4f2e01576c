/** The game state as mutable objects, updated in place once per frame. Each
    method that steps the simulation is proved to leave the objects in the
    state the matching function of module Physics computes; DisplayMessage
    counts the calls that put the win message on screen. */
module Platformer {
  import opened Aabb
  import opened Physics

  class Player {
    var x: real
    var y: real
    const width: real
    const height: real
    const speed: real
    var velocityX: real
    var velocityY: real
    var jumping: bool
    var grounded: bool

    constructor ()
      ensures State() == InitialPlayer
    {
      x, y := 50.0, 350.0;
      width, height := 32.0, 32.0;
      speed := 5.0;
      velocityX, velocityY := 0.0, 0.0;
      jumping, grounded := false, false;
    }

    function Bounds(): Rect
      reads this
    {
      Rect(x, y, width, height)
    }

    function State(): Body
      reads this
    {
      Body(x, y, width, height, speed, velocityX, velocityY, jumping, grounded)
    }

    /** Input: right overrides left; a jump needs up, ground and no jump in progress. */
    method ApplyInput(keys: Keys)
      modifies this
      ensures State() == Physics.ApplyInput(old(State()), keys)
    {
      if keys.left { velocityX := -speed; }
      if keys.right { velocityX := speed; }
      if keys.up && !jumping && grounded {
        jumping := true;
        grounded := false;
        velocityY := -speed * 2.0;
      }
    }

    /** Gravity, motion and friction. */
    method Integrate()
      modifies this
      ensures State() == Physics.Integrate(old(State()))
    {
      velocityY := velocityY + Gravity;
      x := x + velocityX;
      y := y + velocityY;
      velocityX := velocityX * Friction;
    }

    method GroundedReset()
      modifies this
      ensures State() == Physics.GroundedReset(old(State()))
    {
      if grounded {
        velocityY := 0.0;
        jumping := false;
      }
    }

    /** Keeps the player within the canvas borders. */
    method ClampToCanvas()
      modifies this
      ensures State() == Physics.ClampToCanvas(old(State()))
    {
      if x < 0.0 {
        x := 0.0;
        velocityX := 0.0;
      }
      if x + width > CanvasWidth {
        x := CanvasWidth - width;
        velocityX := 0.0;
      }
      if y < 0.0 {
        y := 0.0;
        velocityY := 0.0;
      }
      if y + height > CanvasHeight {
        y := CanvasHeight - height;
        jumping := false;
        grounded := true;
      }
    }

    /** The collision test against one platform and its effect: a side hit
        stops horizontal motion, landing grounds the player, a head hit
        bounces it back down. */
    method Collide(platform: Platform)
      modifies this
      ensures State() == Physics.Contact(old(State()), platform)
    {
      var direction := CheckCollision(this, platform);
      if direction == Left || direction == Right {
        velocityX := 0.0;
      } else if direction == Bottom {
        grounded := true;
        jumping := false;
      } else if direction == Top {
        velocityY := velocityY * -1.0;
      }
    }
  }

  /** The collision test on the live player: reports the side the platform is
      on and moves the player out of it. */
  method CheckCollision(player: Player, platform: Platform) returns (direction: Direction)
    modifies player
    ensures var r := Check(old(player.Bounds()), platform.Bounds());
            && direction == r.direction
            && player.State() == old(player.State()).(x := r.player.x, y := r.player.y)
  {
    var vectorX := (player.x + player.width / 2.0) - (platform.x + platform.width / 2.0);
    var vectorY := (player.y + player.height / 2.0) - (platform.y + platform.height / 2.0);
    var halfWidths := player.width / 2.0 + platform.width / 2.0;
    var halfHeights := player.height / 2.0 + platform.height / 2.0;
    direction := NoCollision;
    if Abs(vectorX) < halfWidths && Abs(vectorY) < halfHeights {
      var offsetX := halfWidths - Abs(vectorX);
      var offsetY := halfHeights - Abs(vectorY);
      if offsetX < offsetY {
        if vectorX > 0.0 {
          direction := Left;
          player.x := player.x + offsetX;
        } else {
          direction := Right;
          player.x := player.x - offsetX;
        }
      } else {
        if vectorY > 0.0 {
          direction := Top;
          player.y := player.y + offsetY;
        } else {
          direction := Bottom;
          player.y := player.y - offsetY;
        }
      }
    }
  }

  class Game {
    const player: Player
    const platforms: array<Platform>
    const target: Rect
    var messageDisplayed: bool
    /** How many times the win message has been put on screen. */
    var messagesShown: nat

    ghost predicate Valid()
      reads this
    {
      messagesShown == if messageDisplayed then 1 else 0
    }

    function Snapshot(): World
      reads this, player, platforms
    {
      World(player.State(), platforms[..], target, messageDisplayed, messagesShown)
    }

    /** The start of a game; v1, v2, v3 are the patrol speeds drawn at random. */
    constructor (v1: real, v2: real, v3: real)
      requires 1.0 <= v1 < 3.0 && 1.0 <= v2 < 3.0 && 1.0 <= v3 < 3.0
      ensures Valid() && fresh(player) && fresh(platforms)
      ensures Snapshot() == Initial(v1, v2, v3)
    {
      player := new Player();
      var ps := new Platform[4];
      ps[0] := Floor;
      ps[1] := Platform(100.0, 300.0, 100.0, 10.0, v1);
      ps[2] := Platform(200.0, 200.0, 100.0, 10.0, v2);
      ps[3] := Platform(300.0, 100.0, 100.0, 10.0, v3);
      platforms := ps;
      target := Rect(10.0, 10.0, 32.0, 32.0);
      messageDisplayed := false;
      messagesShown := 0;
      new;
      assert platforms[..] == InitialPlatforms(v1, v2, v3);
    }

    /** Puts the win message on screen. */
    method DisplayMessage()
      modifies this`messagesShown
      ensures messagesShown == old(messagesShown) + 1
    {
      messagesShown := messagesShown + 1;
    }

    /** Moves platform i one step side to side, turning it around at either
        canvas edge. */
    method MovePlatform(i: nat)
      requires i < platforms.Length
      modifies platforms
      ensures platforms[i] == Patrol(old(platforms[i]))
      ensures forall j :: 0 <= j < platforms.Length && j != i ==> platforms[j] == old(platforms[j])
    {
      var platform := platforms[i];
      platform := platform.(x := platform.x + platform.velocityX);
      if platform.x <= 0.0 || platform.x + platform.width >= CanvasWidth {
        platform := platform.(velocityX := platform.velocityX * -1.0);
      }
      platforms[i] := platform;
    }

    /** Meets each platform in turn, then moves it one patrol step. */
    method PlatformPass()
      modifies player, platforms
      ensures player.State() == Pass(old(player.State()), old(platforms[..]))
      ensures platforms[..] == PatrolAll(old(platforms[..]))
    {
      ghost var start := player.State();
      ghost var ps := platforms[..];
      var i := 0;
      while i < platforms.Length
        invariant 0 <= i <= platforms.Length
        invariant player.State() == Pass(start, ps[..i])
        invariant forall j :: 0 <= j < i ==> platforms[j] == Patrol(ps[j])
        invariant forall j :: i <= j < platforms.Length ==> platforms[j] == ps[j]
      {
        assert ps[..i + 1][..i] == ps[..i];
        player.Collide(platforms[i]);
        assert player.State() == Pass(start, ps[..i + 1]);

        MovePlatform(i);
        i := i + 1;
      }
      assert ps[..i] == ps;
      assert platforms[..] == PatrolAll(ps);
    }

    /** One frame, without the drawing. */
    method Update(keys: Keys)
      requires Valid()
      modifies this, player, platforms
      ensures Valid()
      ensures Snapshot() == Step(old(Snapshot()), keys)
    {
      ghost var w0 := Snapshot();

      player.ApplyInput(keys);
      player.Integrate();
      player.GroundedReset();
      player.ClampToCanvas();
      assert player.State() == BeforePass(w0.player, keys);

      player.grounded := false;
      PlatformPass();

      if !messageDisplayed && player.x < target.x + target.width &&
         player.x + player.width > target.x &&
         player.y < target.y + target.height &&
         player.y + player.height > target.y
      {
        DisplayMessage();
        messageDisplayed := true;
      }
    }
  }

  /** The host's frame loop: one Update per element of frames. */
  method Play(game: Game, frames: seq<Keys>)
    requires game.Valid()
    modifies game, game.player, game.platforms
    ensures game.Valid() && game.messagesShown <= 1
    ensures game.Snapshot() == Run(old(game.Snapshot()), frames)
  {
    var i := 0;
    while i < |frames|
      invariant 0 <= i <= |frames|
      invariant game.Valid()
      invariant Run(game.Snapshot(), frames[i..]) == Run(old(game.Snapshot()), frames)
    {
      assert frames[i..][1..] == frames[i + 1..];
      game.Update(frames[i]);
      i := i + 1;
    }
  }
}
