/** The per-frame simulation step of the platformer, as functions on values.
    Each phase of the frame is a function; Step composes them in the order the
    frame runs them, and Run folds Step over a sequence of frames. */
module Physics {
  import opened Aabb

  const Gravity: real := 0.5
  const Friction: real := 0.8
  const CanvasWidth: real := 450.0
  const CanvasHeight: real := 440.0

  /** The three input flags, as read once per frame. */
  datatype Keys = Keys(left: bool, right: bool, up: bool)

  const NoKeys: Keys := Keys(false, false, false)

  datatype Body = Body(x: real, y: real, width: real, height: real, speed: real,
                       velocityX: real, velocityY: real, jumping: bool, grounded: bool)
  {
    function Bounds(): Rect { Rect(x, y, width, height) }
  }

  datatype Platform = Platform(x: real, y: real, width: real, height: real, velocityX: real)
  {
    function Bounds(): Rect { Rect(x, y, width, height) }
  }

  /** Everything one frame reads and writes. messagesShown counts the calls
      made to show the win message. */
  datatype World = World(player: Body, platforms: seq<Platform>, target: Rect,
                         messageDisplayed: bool, messagesShown: nat)

  const InitialPlayer: Body := Body(50.0, 350.0, 32.0, 32.0, 5.0, 0.0, 0.0, false, false)

  const Target: Rect := Rect(10.0, 10.0, 32.0, 32.0)

  /** The static floor along the bottom of the canvas, as wide as the canvas. */
  const Floor: Platform := Platform(0.0, 400.0, 450.0, 50.0, 0.0)

  /** The static floor and three patrolling platforms; v1, v2, v3 are the
      randomly drawn patrol speeds. */
  function InitialPlatforms(v1: real, v2: real, v3: real): (ps: seq<Platform>)
    ensures |ps| == 4 && ps[0] == Floor
    // a staircase of 100x10 ledges, each 100 to the right of and 100 above the last
    ensures forall i :: 1 <= i < 4 ==>
              && ps[i].x == 100.0 * i as real && ps[i].y == 400.0 - 100.0 * i as real
              && ps[i].width == 100.0 && ps[i].height == 10.0
    ensures ps[1].velocityX == v1 && ps[2].velocityX == v2 && ps[3].velocityX == v3
  {
    [ Floor,
      Platform(100.0, 300.0, 100.0, 10.0, v1),
      Platform(200.0, 200.0, 100.0, 10.0, v2),
      Platform(300.0, 100.0, 100.0, 10.0, v3) ]
  }

  function Initial(v1: real, v2: real, v3: real): (w: World)
    ensures w.player.x == 50.0 && w.player.y == 350.0 && w.player.speed == 5.0
    ensures w.player.width == 32.0 && w.player.height == 32.0
    ensures w.player.velocityX == 0.0 && w.player.velocityY == 0.0
    ensures !w.player.jumping && !w.player.grounded
    ensures w.platforms == InitialPlatforms(v1, v2, v3) && w.target == Target
    ensures !w.messageDisplayed && w.messagesShown == 0
  {
    World(InitialPlayer, InitialPlatforms(v1, v2, v3), Target, false, 0)
  }

  // ---------------------------------------------------------------- input

  /** A jump may start only when up is held and the player stands on
      something and is not already in a jump. */
  predicate CanJump(b: Body, k: Keys) { k.up && !b.jumping && b.grounded }

  function ApplyInput(b: Body, k: Keys): (r: Body)
    // right is read last, so it wins when both are held
    ensures k.right ==> r.velocityX == b.speed
    ensures k.left && !k.right ==> r.velocityX == -b.speed
    ensures !k.left && !k.right ==> r.velocityX == b.velocityX
    ensures CanJump(b, k) ==> r.jumping && !r.grounded && r.velocityY == -2.0 * b.speed
    ensures !CanJump(b, k) ==>
              r.jumping == b.jumping && r.grounded == b.grounded && r.velocityY == b.velocityY
    ensures r.Bounds() == b.Bounds() && r.speed == b.speed
  {
    var b1 := if k.left then b.(velocityX := -b.speed) else b;
    var b2 := if k.right then b1.(velocityX := b1.speed) else b1;
    if k.up && !b2.jumping && b2.grounded then
      b2.(jumping := true, grounded := false, velocityY := -b2.speed * 2.0)
    else
      b2
  }

  // ---------------------------------------------------------- integration

  /** Gravity, then motion by the velocity, then friction on the horizontal
      velocity. */
  function Integrate(b: Body): (r: Body)
    // gravity acts before the move, friction after it
    ensures r.velocityY == b.velocityY + Gravity
    ensures r.x == b.x + b.velocityX && r.y == b.y + r.velocityY
    ensures r.velocityX == Friction * b.velocityX
    ensures r.width == b.width && r.height == b.height && r.speed == b.speed
    ensures r.jumping == b.jumping && r.grounded == b.grounded
  {
    var vy := b.velocityY + Gravity;
    b.(velocityY := vy, x := b.x + b.velocityX, y := b.y + vy, velocityX := b.velocityX * Friction)
  }

  /** A player that was grounded at the start of the frame loses its
      vertical velocity and its jump. */
  function GroundedReset(b: Body): (r: Body)
    ensures b.grounded ==> r == b.(velocityY := 0.0, jumping := false)
    ensures !b.grounded ==> r == b
  {
    if b.grounded then b.(velocityY := 0.0, jumping := false) else b
  }

  // --------------------------------------------------------- border clamp

  predicate InCanvas(b: Body) {
    0.0 <= b.x <= CanvasWidth - b.width && 0.0 <= b.y <= CanvasHeight - b.height
  }

  predicate FitsCanvas(b: Body) { b.width <= CanvasWidth && b.height <= CanvasHeight }

  predicate BelowFloor(b: Body) { b.y + b.height > CanvasHeight }

  function ClampToCanvas(b: Body): (r: Body)
    ensures FitsCanvas(b) ==> InCanvas(r)
    ensures InCanvas(b) ==> r == b
    // a coordinate out of range goes to the nearest edge; one in range stays put
    ensures FitsCanvas(b) ==>
              r.x == if b.x < 0.0 then 0.0
                     else if b.x + b.width > CanvasWidth then CanvasWidth - b.width
                     else b.x
    ensures FitsCanvas(b) ==>
              r.y == if b.y < 0.0 then 0.0
                     else if b.y + b.height > CanvasHeight then CanvasHeight - b.height
                     else b.y
    ensures r.width == b.width && r.height == b.height && r.speed == b.speed
    // a horizontal clamp stops horizontal motion, the top clamp stops vertical motion
    ensures FitsCanvas(b) ==>
              r.velocityX == if b.x < 0.0 || b.x + b.width > CanvasWidth then 0.0 else b.velocityX
    ensures FitsCanvas(b) ==> r.velocityY == if b.y < 0.0 then 0.0 else b.velocityY
    // reaching the bottom edge lands the player, but keeps its vertical velocity
    ensures FitsCanvas(b) && BelowFloor(b) ==> r.grounded && !r.jumping
    ensures FitsCanvas(b) && !BelowFloor(b) ==> r.grounded == b.grounded && r.jumping == b.jumping
  {
    var b1 := if b.x < 0.0 then b.(x := 0.0, velocityX := 0.0) else b;
    var b2 := if b1.x + b1.width > CanvasWidth then b1.(x := CanvasWidth - b1.width, velocityX := 0.0) else b1;
    var b3 := if b2.y < 0.0 then b2.(y := 0.0, velocityY := 0.0) else b2;
    if b3.y + b3.height > CanvasHeight then
      b3.(y := CanvasHeight - b3.height, jumping := false, grounded := true)
    else
      b3
  }

  /** The player as it enters the platform pass. */
  function BeforePass(b: Body, k: Keys): Body {
    ClampToCanvas(GroundedReset(Integrate(ApplyInput(b, k))))
  }

  // ------------------------------------------------------- platform pass

  /** The side on which the collision test finds platform p. */
  function Hit(b: Body, p: Platform): Direction {
    Check(b.Bounds(), p.Bounds()).direction
  }

  /** The collision test against one platform and its effect on the player. */
  function Contact(b: Body, p: Platform): (r: Body)
    ensures !Overlaps(b.Bounds(), p.Bounds()) ==> r == b
    ensures r.Bounds() == Check(b.Bounds(), p.Bounds()).player
    ensures !Overlaps(r.Bounds(), p.Bounds())
    ensures r.width == b.width && r.height == b.height && r.speed == b.speed
    ensures Hit(b, p).Horizontal() ==> r.velocityX == 0.0 && r.velocityY == b.velocityY
    ensures Hit(b, p) == Top ==> r.velocityY == -b.velocityY && r.velocityX == b.velocityX
    ensures Hit(b, p) == Bottom ==>
              r.grounded && !r.jumping && r.velocityX == b.velocityX && r.velocityY == b.velocityY
    ensures Hit(b, p) != Bottom ==> r.grounded == b.grounded && r.jumping == b.jumping
  {
    var res := Check(b.Bounds(), p.Bounds());
    var moved := b.(x := res.player.x, y := res.player.y);
    match res.direction
    case Left | Right => moved.(velocityX := 0.0)
    case Bottom => moved.(grounded := true, jumping := false)
    case Top => moved.(velocityY := moved.velocityY * -1.0)
    case NoCollision => moved
  }

  /** The player after meeting the platforms ps in order. */
  function Pass(b: Body, ps: seq<Platform>): (r: Body)
    ensures r.width == b.width && r.height == b.height && r.speed == b.speed
    ensures ps != [] ==> !Overlaps(r.Bounds(), ps[|ps| - 1].Bounds())
  {
    if ps == [] then b else Contact(Pass(b, ps[..|ps| - 1]), ps[|ps| - 1])
  }

  /** The directions the collision test returns during Pass(b, ps). */
  function Directions(b: Body, ps: seq<Platform>): (ds: seq<Direction>)
    ensures |ds| == |ps|
  {
    if ps == [] then [] else
      var init := ps[..|ps| - 1];
      Directions(b, init) + [Hit(Pass(b, init), ps[|ps| - 1])]
  }

  predicate AtEdge(p: Platform) { p.x <= 0.0 || p.x + p.width >= CanvasWidth }

  /** One patrol step: advance, then turn around at either canvas edge. */
  function Patrol(p: Platform): (r: Platform)
    ensures r.x == p.x + p.velocityX
    ensures r.y == p.y && r.width == p.width && r.height == p.height
    // the velocity only ever changes sign
    ensures r.velocityX == p.velocityX || r.velocityX == -p.velocityX
    ensures Abs(r.velocityX) == Abs(p.velocityX)
    // and it does so exactly when the moved platform is at an edge
    ensures p.velocityX != 0.0 ==> (r.velocityX != p.velocityX <==> AtEdge(r))
  {
    var moved := p.(x := p.x + p.velocityX);
    if moved.x <= 0.0 || moved.x + moved.width >= CanvasWidth then
      moved.(velocityX := moved.velocityX * -1.0)
    else
      moved
  }

  function PatrolAll(ps: seq<Platform>): (rs: seq<Platform>)
    ensures |rs| == |ps|
  {
    seq(|ps|, i requires 0 <= i < |ps| => Patrol(ps[i]))
  }

  // ------------------------------------------------------------ win latch

  /** The message counter agrees with the flag: one call once shown, none before. */
  predicate Latched(w: World) { w.messagesShown == if w.messageDisplayed then 1 else 0 }

  function WinCheck(w: World): (r: World)
    ensures r.player == w.player && r.platforms == w.platforms && r.target == w.target
    ensures w.messageDisplayed ==> r == w
    ensures r.messageDisplayed <==> w.messageDisplayed || Overlaps(w.player.Bounds(), w.target)
    ensures r.messagesShown ==
              w.messagesShown + if r.messageDisplayed && !w.messageDisplayed then 1 else 0
    ensures Latched(w) ==> Latched(r)
  {
    if !w.messageDisplayed && w.player.x < w.target.x + w.target.width &&
       w.player.x + w.player.width > w.target.x &&
       w.player.y < w.target.y + w.target.height &&
       w.player.y + w.player.height > w.target.y
    then
      w.(messageDisplayed := true, messagesShown := w.messagesShown + 1)
    else
      w
  }

  // ---------------------------------------------------------------- frame

  /** One whole frame: input, integration, grounded reset, border clamp,
      platform pass with patrol, win check. */
  function Step(w: World, k: Keys): (r: World)
    ensures r.target == w.target && |r.platforms| == |w.platforms|
    ensures forall i :: 0 <= i < |w.platforms| ==> r.platforms[i] == Patrol(w.platforms[i])
  {
    var b := BeforePass(w.player, k).(grounded := false);
    WinCheck(w.(player := Pass(b, w.platforms), platforms := PatrolAll(w.platforms)))
  }

  /** The frames driven by the host, one per element of frames. */
  function Run(w: World, frames: seq<Keys>): (r: World)
    ensures frames == [] ==> r == w
    ensures r.target == w.target && |r.platforms| == |w.platforms|
    decreases |frames|
  {
    if frames == [] then w else Run(Step(w, frames[0]), frames[1..])
  }
}
