/** Properties of the frame step: the jump and friction rules, the border
    clamp, the grounded flag after the platform pass, platform patrol bounds,
    and the one-shot win message over any number of frames. */
module Properties {
  import opened Aabb
  import opened Physics

  // ---------------------------------------------------- input and motion

  /** A jump takes off at twice the speed upwards, before gravity is added. */
  lemma JumpTakeoff(b: Body, k: Keys)
    requires CanJump(b, k)
    ensures var m := Integrate(ApplyInput(b, k));
            m.jumping && !m.grounded && m.velocityY == -2.0 * b.speed + Gravity
  {
  }

  /** Without a held direction key, horizontal velocity decays geometrically. */
  lemma FrictionDecay(b: Body, k: Keys)
    requires !k.left && !k.right
    ensures Integrate(ApplyInput(b, k)).velocityX == Friction * b.velocityX
  {
  }

  /** A held direction key sets the velocity to the speed, which friction then damps. */
  lemma HeldKeyVelocity(b: Body, k: Keys)
    requires k.left || k.right
    ensures Integrate(ApplyInput(b, k)).velocityX ==
              Friction * (if k.right then b.speed else -b.speed)
  {
  }

  /** A player grounded at the start of the frame that does not jump enters
      the clamp with no vertical velocity and no jump. */
  lemma GroundedStartStops(b: Body, k: Keys)
    requires b.grounded && !CanJump(b, k)
    ensures var g := GroundedReset(Integrate(ApplyInput(b, k)));
            g.velocityY == 0.0 && !g.jumping && g.grounded
  {
  }

  /** Right after the border clamp the player is inside the canvas. */
  lemma ClampedBeforePass(b: Body, k: Keys)
    requires FitsCanvas(b)
    ensures InCanvas(BeforePass(b, k))
  {
  }

  /** The platform pass can push a clamped player through a wall: a player
      pressed against the right edge, met by a patrolling platform from the
      left, ends the frame past the edge. */
  lemma PlatformPushesThroughWall()
    ensures var w := World(InitialPlayer.(x := 418.0, y := 288.5),
                           [Floor, Platform(338.0, 300.0, 100.0, 10.0, 1.0)], Target, false, 0);
            && InCanvas(BeforePass(w.player, NoKeys))
            && Roaming(w.platforms[1])
            && Step(w, NoKeys).player.x == 438.0
            && !InCanvas(Step(w, NoKeys).player)
  {
    var w := World(InitialPlayer.(x := 418.0, y := 288.5),
                   [Floor, Platform(338.0, 300.0, 100.0, 10.0, 1.0)], Target, false, 0);
    var b := BeforePass(w.player, NoKeys).(grounded := false);
    assert b == w.player.(y := 289.0, velocityY := 0.5);
    assert w.platforms[..1] == [Floor] && [Floor][..0] == [];
    assert Hit(b, Floor) == NoCollision;
    assert Pass(b, w.platforms[..1]) == b;
    assert Hit(b, w.platforms[1]) == Left;
    assert Pass(b, w.platforms) == Contact(b, w.platforms[1]);
  }

  // -------------------------------------------------------- platform pass

  /** Meeting one more platform is one more contact. */
  lemma PassSnoc(b: Body, xs: seq<Platform>, p: Platform)
    ensures Pass(b, xs + [p]) == Contact(Pass(b, xs), p)
  {
  }

  /** Meeting xs and then ys is meeting xs + ys. */
  lemma {:induction false} PassAppend(b: Body, xs: seq<Platform>, ys: seq<Platform>)
    ensures Pass(b, xs + ys) == Pass(Pass(b, xs), ys)
    decreases |ys|
  {
    if ys == [] {
      assert xs + ys == xs;
    } else {
      var init, last := ys[..|ys| - 1], ys[|ys| - 1];
      assert ys == init + [last];
      assert xs + ys == (xs + init) + [last];
      PassAppend(b, xs, init);
      PassSnoc(b, xs + init, last);
      PassSnoc(Pass(b, xs), init, last);
    }
  }

  /** Platforms that do not overlap the player leave it exactly as it was. */
  lemma {:induction false} PassMisses(b: Body, ps: seq<Platform>)
    requires forall i :: 0 <= i < |ps| ==> !Overlaps(b.Bounds(), ps[i].Bounds())
    ensures Pass(b, ps) == b
    ensures forall i :: 0 <= i < |ps| ==> Directions(b, ps)[i] == NoCollision
    decreases |ps|
  {
    if ps != [] {
      PassMisses(b, ps[..|ps| - 1]);
    }
  }

  /** Starting the pass ungrounded, the player ends it grounded exactly when
      some platform was found below it, and then it is not jumping. */
  lemma {:induction false} PassGrounded(b: Body, ps: seq<Platform>)
    requires !b.grounded
    ensures Pass(b, ps).grounded <==> Bottom in Directions(b, ps)
    ensures Pass(b, ps).grounded ==> !Pass(b, ps).jumping
    decreases |ps|
  {
    if ps != [] {
      PassGrounded(b, ps[..|ps| - 1]);
    }
  }

  /** In a frame, grounded comes from the platform pass alone: whatever the
      border clamp set is overwritten. */
  lemma StepGrounded(w: World, k: Keys)
    ensures var b := BeforePass(w.player, k).(grounded := false);
            Step(w, k).player.grounded <==> Bottom in Directions(b, w.platforms)
    ensures Step(w, k).player.grounded ==> !Step(w, k).player.jumping
  {
    PassGrounded(BeforePass(w.player, k).(grounded := false), w.platforms);
  }

  /** The floor's zero velocity turns around every frame and stays zero. */
  lemma FloorIsStatic()
    ensures Patrol(Floor) == Floor
  {
  }

  predicate RestingOnFloor(b: Body) {
    && b.width == 32.0 && b.height == 32.0
    && 0.0 <= b.x <= CanvasWidth - 32.0 && b.y == 400.0 - 32.0
    && b.velocityX == 0.0 && b.velocityY == 0.0 && b.grounded
  }

  /** A player at rest on the floor, with no key held and no other platform
      low enough to touch it, stays at rest and grounded. */
  lemma StaysOnFloor(w: World)
    requires |w.platforms| >= 1 && w.platforms[0] == Floor
    requires forall i :: 1 <= i < |w.platforms| ==> w.platforms[i].y + w.platforms[i].height <= 368.0
    requires RestingOnFloor(w.player)
    ensures var p := Step(w, NoKeys).player;
            RestingOnFloor(p) && !p.jumping && p.x == w.player.x
  {
    var b := BeforePass(w.player, NoKeys).(grounded := false);
    assert b == w.player.(y := 368.5, jumping := false, grounded := false);
    assert Hit(b, Floor) == Bottom;
    var landed := Contact(b, Floor);
    assert landed == w.player.(jumping := false);
    assert w.platforms[..1] + w.platforms[1..] == w.platforms;
    assert w.platforms[..1] == [Floor] && [Floor][..0] == [];
    PassAppend(b, w.platforms[..1], w.platforms[1..]);
    PassMisses(landed, w.platforms[1..]);
  }

  // --------------------------------------------------------------- patrol

  /** A moving platform on its beat: heading right it is at most one step
      past the left edge and not yet at the right one; heading left the
      other way round. */
  predicate Roaming(p: Platform) {
    && 0.0 < p.width < CanvasWidth
    && p.velocityX != 0.0
    && (p.velocityX > 0.0 ==> -p.velocityX < p.x < CanvasWidth - p.width)
    && (p.velocityX < 0.0 ==> 0.0 < p.x < CanvasWidth - p.width - p.velocityX)
  }

  lemma PatrolKeepsRoaming(p: Platform)
    requires Roaming(p)
    ensures Roaming(Patrol(p))
  {
  }

  /** A roaming platform overshoots either edge by less than one step. */
  lemma RoamingOvershoot(p: Platform)
    requires Roaming(p)
    ensures -Abs(p.velocityX) < p.x && p.x + p.width < CanvasWidth + Abs(p.velocityX)
  {
  }

  /** Over any number of frames a roaming platform keeps roaming, with the
      same row, size and speed. */
  lemma {:induction false} RunRoaming(w: World, frames: seq<Keys>, i: nat)
    requires i < |w.platforms| && Roaming(w.platforms[i])
    ensures |Run(w, frames).platforms| == |w.platforms|
    ensures var p := Run(w, frames).platforms[i];
            && Roaming(p)
            && p.y == w.platforms[i].y && p.width == w.platforms[i].width
            && p.height == w.platforms[i].height
            && Abs(p.velocityX) == Abs(w.platforms[i].velocityX)
    decreases |frames|
  {
    if frames != [] {
      PatrolKeepsRoaming(w.platforms[i]);
      RunRoaming(Step(w, frames[0]), frames[1..], i);
    }
  }

  // ------------------------------------------------------------ win latch

  /** In one frame the message is shown iff the player ends the frame over
      the target and it was not shown before. */
  lemma WinFires(w: World, k: Keys)
    requires !w.messageDisplayed
    ensures Step(w, k).messageDisplayed <==> Overlaps(Step(w, k).player.Bounds(), w.target)
  {
  }

  lemma StepLatch(w: World, k: Keys)
    requires Latched(w)
    ensures var r := Step(w, k);
            && Latched(r) && r.target == w.target
            && (w.messageDisplayed ==> r.messageDisplayed)
            && (!w.messageDisplayed && r.messageDisplayed ==> Overlaps(r.player.Bounds(), w.target))
  {
  }

  /** Over any sequence of frames the message is shown at most once, the
      flag never returns to false and the target never moves. */
  lemma {:induction false} RunLatch(w: World, frames: seq<Keys>)
    requires Latched(w)
    ensures var r := Run(w, frames);
            && Latched(r) && r.messagesShown <= 1 && r.target == w.target
            && (w.messageDisplayed ==> r.messageDisplayed)
    decreases |frames|
  {
    if frames != [] {
      StepLatch(w, frames[0]);
      RunLatch(Step(w, frames[0]), frames[1..]);
    }
  }

  /** The starting world: player inside the canvas, message not shown, the
      floor static and every drawn speed giving a roaming platform. */
  lemma InitialWorldIsSound(v1: real, v2: real, v3: real)
    requires 1.0 <= v1 < 3.0 && 1.0 <= v2 < 3.0 && 1.0 <= v3 < 3.0
    ensures var w := Initial(v1, v2, v3);
            && InCanvas(w.player) && FitsCanvas(w.player)
            && Latched(w) && !w.messageDisplayed
            && |w.platforms| == 4 && w.platforms[0] == Floor
            && forall i :: 1 <= i < 4 ==> Roaming(w.platforms[i])
  {
  }
}
