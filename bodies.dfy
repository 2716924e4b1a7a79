/**
 * The core of src/lib/Bodies.ts: the contact classifier, the world builder, the
 * player factory with its chain-vertex loop, and the kinematic-state snapshot.
 */
module Bodies {
  import opened Options
  import opened Taxonomy
  import opened Constants
  import opened Engine

  // ---------------------------------------------------------------------------
  // Body taxonomy over body lists
  // ---------------------------------------------------------------------------

  /** The classifier's test `b.m_userData?.kind == k`: false for a body without user data. */
  predicate HasKind(b: Body, k: KindName) {
    b.userData.Some? && b.userData.value.Kind() == k
  }

  /** The number of bodies in the list that carry kind `k`. */
  function CountKind(bodies: seq<Body>, k: KindName): (n: nat) {
    if bodies == [] then 0
    else CountKind(bodies[..|bodies| - 1], k) + (if HasKind(bodies[|bodies| - 1], k) then 1 else 0)
  }

  /** Appending one body adds one to the count of its kind and nothing to the others. */
  lemma CountKindAppend(bodies: seq<Body>, b: Body, k: KindName)
    ensures CountKind(bodies + [b], k) == CountKind(bodies, k) + (if HasKind(b, k) then 1 else 0)
  {
  }

  /** A tagged body is counted. */
  lemma {:induction false} TaggedIsCounted(bodies: seq<Body>, i: nat, k: KindName)
    requires i < |bodies| && HasKind(bodies[i], k)
    ensures CountKind(bodies, k) >= 1
  {
    if i < |bodies| - 1 {
      TaggedIsCounted(bodies[..|bodies| - 1], i, k);
    }
  }

  /** When at most one body carries kind `k`, no two positions of the list both carry it. */
  lemma {:induction false} AtMostOneTagged(bodies: seq<Body>, i: nat, j: nat, k: KindName)
    requires CountKind(bodies, k) <= 1
    requires i < j < |bodies|
    ensures !(HasKind(bodies[i], k) && HasKind(bodies[j], k))
  {
    var prefix := bodies[..|bodies| - 1];
    if j == |bodies| - 1 {
      if HasKind(bodies[i], k) && HasKind(bodies[j], k) {
        TaggedIsCounted(prefix, i, k);
        assert false;
      }
    } else {
      AtMostOneTagged(prefix, i, j, k);
    }
  }

  // ---------------------------------------------------------------------------
  // Contact classification (getContactBodies)
  // ---------------------------------------------------------------------------

  /** `bodies.find(b => b.m_userData?.kind == k)`: the first body of the list carrying kind `k`. */
  function Find(bodies: seq<Body>, k: KindName): (r: Option<Body>)
    ensures r.Some? ==> r.value in bodies && HasKind(r.value, k)
    ensures r.None? <==> forall i :: 0 <= i < |bodies| ==> !HasKind(bodies[i], k)
    ensures forall i :: 0 <= i < |bodies| && HasKind(bodies[i], k) && (forall j :: 0 <= j < i ==> !HasKind(bodies[j], k))
                        ==> r == Some(bodies[i])
  {
    if bodies == [] then None
    else if HasKind(bodies[0], k) then Some(bodies[0])
    else
      var r := Find(bodies[1..], k);
      assert forall i :: 1 <= i < |bodies| ==> bodies[i] == bodies[1..][i - 1];
      r
  }

  /** The classifier's result: for each kind, the participant carrying it, if any. */
  datatype ContactBodies = ContactBodies(player: Option<Body>, ball: Option<Body>, ground: Option<Body>)
  {
    function Slot(k: KindName): (slot: Option<Body>) {
      match k
      case PLAYER => player
      case BALL => ball
      case GROUND => ground
    }
  }

  /**
   * What a slot of kind `k` holds for contact `c`: when present, one of the two
   * participants and one that carries `k`; absent exactly when neither carries `k`;
   * and body A whenever body A carries `k`.
   */
  ghost predicate Classifies(c: Contact, slot: Option<Body>, k: KindName) {
    && (slot.Some? ==> (slot.value == c.bodyA || slot.value == c.bodyB) && HasKind(slot.value, k))
    && (slot.None? <==> !HasKind(c.bodyA, k) && !HasKind(c.bodyB, k))
    && (HasKind(c.bodyA, k) ==> slot == Some(c.bodyA))
  }

  /** getContactBodies: picks out the player, the ball and the ground of a contact. */
  function GetContactBodies(contact: Contact): (r: ContactBodies)
    ensures Classifies(contact, r.player, PLAYER)
    ensures Classifies(contact, r.ball, BALL)
    ensures Classifies(contact, r.ground, GROUND)
  {
    var bodies := [contact.bodyA, contact.bodyB];
    assert bodies[0] == contact.bodyA && bodies[1] == contact.bodyB;
    ContactBodies(Find(bodies, PLAYER), Find(bodies, BALL), Find(bodies, GROUND))
  }

  /** Whether a slot is filled does not depend on the order the engine reports the bodies in. */
  lemma SwapKeepsPresence(c: Contact, k: KindName)
    ensures GetContactBodies(c.Swapped()).Slot(k).Some? == GetContactBodies(c).Slot(k).Some?
  {
  }

  /** Unless both participants carry `k`, the slot holds the same body whichever order the contact is in. */
  lemma SwapKeepsSlot(c: Contact, k: KindName)
    requires c.bodyA == c.bodyB || !(HasKind(c.bodyA, k) && HasKind(c.bodyB, k))
    ensures GetContactBodies(c.Swapped()).Slot(k) == GetContactBodies(c).Slot(k)
  {
  }

  /** Two players in one contact: the slot holds body A, so here the result depends on the order. */
  lemma BothPlayersPicksBodyA(c: Contact)
    requires HasKind(c.bodyA, PLAYER) && HasKind(c.bodyB, PLAYER)
    ensures GetContactBodies(c).player == Some(c.bodyA)
    ensures GetContactBodies(c.Swapped()).player == Some(c.bodyB)
  {
  }

  /**
   * In a body list holding at most one ball and at most one ground (as every world
   * built by CreateWorld does), the ball and ground slots of a contact between two
   * of its bodies do not depend on the order of the contact.
   */
  lemma SwapKeepsBallAndGround(bodies: seq<Body>, c: Contact)
    requires c.bodyA in bodies && c.bodyB in bodies
    requires CountKind(bodies, BALL) <= 1 && CountKind(bodies, GROUND) <= 1
    ensures GetContactBodies(c.Swapped()).ball == GetContactBodies(c).ball
    ensures GetContactBodies(c.Swapped()).ground == GetContactBodies(c).ground
  {
    if c.bodyA != c.bodyB {
      var i :| 0 <= i < |bodies| && bodies[i] == c.bodyA;
      var j :| 0 <= j < |bodies| && bodies[j] == c.bodyB;
      if i < j {
        AtMostOneTagged(bodies, i, j, BALL);
        AtMostOneTagged(bodies, i, j, GROUND);
      } else {
        AtMostOneTagged(bodies, j, i, BALL);
        AtMostOneTagged(bodies, j, i, GROUND);
      }
    }
    SwapKeepsSlot(c, BALL);
    SwapKeepsSlot(c, GROUND);
  }

  /** A body without user data, such as the net, fills no slot of any contact. */
  lemma UntaggedFillsNoSlot(c: Contact, b: Body, k: KindName)
    requires b.userData.None?
    ensures GetContactBodies(c).Slot(k) != Some(b)
  {
  }

  /** The contact is between `x` and `y`, in either order. */
  predicate Between(c: Contact, x: Body, y: Body) {
    (c.bodyA == x && c.bodyB == y) || (c.bodyA == y && c.bodyB == x)
  }

  /** A player touching the ball: the player slot holds that player, with its index, and there is no ground. */
  lemma PlayerBallContact(c: Contact, player: Body, ball: Body, index: int)
    requires Between(c, player, ball)
    requires player.userData == Some(Player(index)) && ball.userData == Some(Ball)
    ensures GetContactBodies(c).player == Some(player)
    ensures GetContactBodies(c).player.value.userData.value.playerIndex == index
    ensures GetContactBodies(c).ball == Some(ball)
    ensures GetContactBodies(c).ground == None
  {
  }

  /** The ball touching the ground: both slots are filled and the player slot is empty. */
  lemma BallGroundContact(c: Contact, ball: Body, ground: Body)
    requires Between(c, ball, ground)
    requires ball.userData == Some(Ball) && ground.userData == Some(Ground)
    ensures GetContactBodies(c).ball == Some(ball)
    ensures GetContactBodies(c).ground == Some(ground)
    ensures GetContactBodies(c).player == None
  {
  }

  // ---------------------------------------------------------------------------
  // World construction (createWorld)
  // ---------------------------------------------------------------------------

  /** The ground's fixture: an oversized box of zero density. */
  const GROUND_FIXTURE: FixtureDef := FixtureDef(Box(WIDTH * 5.0, GROUND_THICKNESS / 2.0), Some(0.0), None, None)

  /** The net's fixture: a thin box whose restitution and friction are both the net's bounce. */
  const NET_FIXTURE: FixtureDef :=
    FixtureDef(Box(NET_THICKNESS / 2.0, NET_HEIGHT / 2.0), None, Some(NET_RESTITUTION), Some(NET_RESTITUTION))

  /** The ball's fixture: a circle of unit density whose restitution and friction are both the ball's bounce. */
  const BALL_FIXTURE: FixtureDef :=
    FixtureDef(Circle(ZERO, BALL_RADIUS), Some(1.0), Some(BALL_RESTITUTION), Some(BALL_RESTITUTION))

  /**
   * createWorld: a world pulled down by gravity, holding a static ground tagged GROUND,
   * an untagged static net and a dynamic ball tagged BALL, in that order; the returned
   * ball is the BALL body.
   */
  method CreateWorld() returns (world: World, ball: Body)
    ensures fresh(world) && world.Valid()
    ensures world.gravity == XY(0.0, -GRAVITY)
    ensures |world.bodies| == 3 && ball == world.bodies[2]
    ensures forall i :: 0 <= i < |world.bodies| ==>
      fresh(world.bodies[i]) && fresh(world.bodies[i].position) && fresh(world.bodies[i].linearVelocity)
    ensures var ground := world.bodies[0];
      && ground.userData == Some(Ground) && ground.motion == Static && ground.linearDamping == None
      && ground.State() == KinematicState(XY(0.0, -GROUND_THICKNESS / 2.0), ZERO, 0.0)
      && ground.fixtures == [GROUND_FIXTURE]
    ensures var net := world.bodies[1];
      && net.userData == None && net.motion == Static && net.linearDamping == None
      && net.State() == KinematicState(XY(0.0, NET_HEIGHT / 2.0), ZERO, 0.0)
      && net.fixtures == [NET_FIXTURE]
    ensures && ball.userData == Some(Ball) && ball.motion == Dynamic && ball.linearDamping == Some(BALL_DAMPING)
            && ball.State() == KinematicState(XY(BALL_STARTING_POS.x, BALL_STARTING_POS.y), ZERO, 0.0)
            && ball.fixtures == [BALL_FIXTURE]
    ensures CountKind(world.bodies, GROUND) == 1 && CountKind(world.bodies, BALL) == 1
    ensures CountKind(world.bodies, PLAYER) == 0
  {
    world := new World(XY(0.0, -GRAVITY));

    var ground := world.CreateBody(DEFAULT_BODY_DEF.(position := XY(0.0, -GROUND_THICKNESS / 2.0), userData := Some(Ground)));
    ground.CreateFixture(GROUND_FIXTURE);

    var net := world.CreateBody(DEFAULT_BODY_DEF.(position := XY(0.0, NET_HEIGHT / 2.0)));
    net.CreateFixture(NET_FIXTURE);

    ball := world.CreateBody(DEFAULT_BODY_DEF.(motion := Dynamic, position := XY(BALL_STARTING_POS.x, BALL_STARTING_POS.y),
                                               userData := Some(Ball), linearDamping := Some(BALL_DAMPING)));
    ball.CreateFixture(BALL_FIXTURE);

    assert world.bodies == [ground, net, ball];
    WorldTaxonomy(ground, net, ball);
  }

  /** The taxonomy of the three bodies createWorld builds: one GROUND, one BALL, no PLAYER. */
  lemma WorldTaxonomy(ground: Body, net: Body, ball: Body)
    requires ground.userData == Some(Ground) && net.userData == None && ball.userData == Some(Ball)
    ensures CountKind([ground, net, ball], GROUND) == 1
    ensures CountKind([ground, net, ball], BALL) == 1
    ensures CountKind([ground, net, ball], PLAYER) == 0
  {
    CountKindAppend([], ground, GROUND);
    CountKindAppend([ground], net, GROUND);
    CountKindAppend([ground, net], ball, GROUND);
    CountKindAppend([], ground, BALL);
    CountKindAppend([ground], net, BALL);
    CountKindAppend([ground, net], ball, BALL);
    CountKindAppend([], ground, PLAYER);
    CountKindAppend([ground], net, PLAYER);
    CountKindAppend([ground, net], ball, PLAYER);
    assert [] + [ground] == [ground] && [ground] + [net] == [ground, net] && [ground, net] + [ball] == [ground, net, ball];
  }

  // ---------------------------------------------------------------------------
  // Player creation (createPlayer)
  // ---------------------------------------------------------------------------

  /** The angle of chain vertex `p` of `n`, in units of π: 1 - p/(n-1). */
  function HalfTurns(p: nat, n: nat): (t: real)
    requires n >= 2
  {
    1.0 - (p as real) / ((n - 1) as real)
  }

  /** The first vertex is at angle π, the last at angle 0. */
  lemma HalfTurnsEnds(n: nat)
    requires n >= 2
    ensures HalfTurns(0, n) == 1.0
    ensures HalfTurns(n - 1, n) == 0.0
  {
  }

  /** Later vertices have strictly smaller angles. */
  lemma HalfTurnsDecreasing(p: nat, q: nat, n: nat)
    requires n >= 2 && p < q
    ensures HalfTurns(q, n) < HalfTurns(p, n)
  {
  }

  /** Every vertex angle lies in [0, π]: the chain stays on the upper half-circle. */
  lemma HalfTurnsInRange(p: nat, n: nat)
    requires n >= 2 && p < n
    ensures 0.0 <= HalfTurns(p, n) <= 1.0
  {
  }

  /** Vertices p and n-1-p have angles θ and π-θ: the chain is symmetric about the y-axis. */
  lemma HalfTurnsMirror(p: nat, n: nat)
    requires n >= 2 && p < n
    ensures HalfTurns(p, n) + HalfTurns(n - 1 - p, n) == 1.0
  {
  }

  /**
   * The vertex loop of createPlayer: `n` points on a circle of radius `radius`, point p
   * at angle π·(1 - p/(n-1)), running from angle π down to angle 0.
   */
  method ChainVertices(radius: real, n: nat) returns (points: seq<PolarPoint>)
    requires n >= 2
    ensures |points| == n
    ensures forall p :: 0 <= p < n ==> points[p] == PolarPoint(radius, HalfTurns(p, n))
    ensures points[0].halfTurns == 1.0 && points[n - 1].halfTurns == 0.0
    ensures forall p, q :: 0 <= p < q < n ==> points[q].halfTurns < points[p].halfTurns
    ensures forall p :: 0 <= p < n ==> 0.0 <= points[p].halfTurns <= 1.0
    ensures forall p :: 0 <= p < n ==> points[p].halfTurns + points[n - 1 - p].halfTurns == 1.0
  {
    points := [];
    for p := 0 to n
      invariant |points| == p
      invariant forall i :: 0 <= i < p ==> points[i] == PolarPoint(radius, HalfTurns(i, n))
    {
      var halfTurns := 1.0 - (p as real) / ((n - 1) as real);
      points := points + [PolarPoint(radius, halfTurns)];
    }
    HalfTurnsEnds(n);
    forall p, q | 0 <= p < q < n
      ensures points[q].halfTurns < points[p].halfTurns
    {
      HalfTurnsDecreasing(p, q, n);
    }
    forall p | 0 <= p < n
      ensures 0.0 <= points[p].halfTurns <= 1.0
      ensures points[p].halfTurns + points[n - 1 - p].halfTurns == 1.0
    {
      HalfTurnsInRange(p, n);
      HalfTurnsMirror(p, n);
    }
  }

  /** createPlayer's side rule: player 0 starts on the left, every other index on the right. */
  function StartX(playerIndex: int): (x: real)
    ensures playerIndex == 0 ==> x < 0.0
    ensures playerIndex != 0 ==> x > 0.0
    ensures x == PLAYER_STARTING_POS || x == -PLAYER_STARTING_POS
  {
    if playerIndex == 0 then -PLAYER_STARTING_POS else PLAYER_STARTING_POS
  }

  /**
   * createPlayer: appends one kinematic body tagged PLAYER with the given index, at the
   * start of its side, whose one fixture is the closed chain of PLAYER_CHAIN_SIZE
   * vertices; the bodies already in the world are left as they were.
   */
  method CreatePlayer(world: World, playerIndex: int) returns (player: Body)
    requires world.Valid()
    modifies world
    ensures world.Valid() && fresh(player) && fresh(player.position) && fresh(player.linearVelocity)
    ensures world.bodies == old(world.bodies) + [player]
    ensures forall i :: 0 <= i < |old(world.bodies)| ==>
      world.bodies[i].State() == old(world.bodies[i].State()) && world.bodies[i].fixtures == old(world.bodies[i].fixtures)
    ensures player.userData == Some(Player(playerIndex)) && player.motion == Kinematic && player.linearDamping == None
    ensures player.State() == KinematicState(XY(StartX(playerIndex), 0.0), ZERO, 0.0)
    ensures |player.fixtures| == 1
    ensures var f := player.fixtures[0];
      && f.shape.Loop? && |f.shape.vertices| == PLAYER_CHAIN_SIZE
      && (forall p :: 0 <= p < PLAYER_CHAIN_SIZE ==> f.shape.vertices[p] == PolarPoint(PLAYER_RADIUS, HalfTurns(p, PLAYER_CHAIN_SIZE)))
      && f.density == Some(1.0) && f.restitution == Some(BALL_RESTITUTION) && f.friction == None
    ensures CountKind(world.bodies, PLAYER) == CountKind(old(world.bodies), PLAYER) + 1
    ensures CountKind(world.bodies, BALL) == CountKind(old(world.bodies), BALL)
    ensures CountKind(world.bodies, GROUND) == CountKind(old(world.bodies), GROUND)
  {
    player := world.CreateBody(DEFAULT_BODY_DEF.(motion := Kinematic, position := XY(StartX(playerIndex), 0.0),
                                                 userData := Some(Player(playerIndex))));
    var points := ChainVertices(PLAYER_RADIUS, PLAYER_CHAIN_SIZE);
    player.CreateFixture(FixtureDef(Loop(points), Some(1.0), Some(BALL_RESTITUTION), None));
    CountKindAppend(old(world.bodies), player, PLAYER);
    CountKindAppend(old(world.bodies), player, BALL);
    CountKindAppend(old(world.bodies), player, GROUND);
  }

  // ---------------------------------------------------------------------------
  // Kinematic-state snapshot (BodySnapshot)
  // ---------------------------------------------------------------------------

  /**
   * BodySnapshot as written. The position is a clone that no one else can reach, so it
   * keeps the captured coordinates and is held as a value. The linear velocity is the
   * reference the body's getter returns: the body's own velocity vector, which goes on
   * changing with the body.
   */
  class BodySnapshot {
    const position: XY
    const velocity: Vec2
    const angularVelocity: real

    constructor (body: Body)
      ensures position == body.position.Value()
      ensures velocity == body.linearVelocity
      ensures angularVelocity == body.angularVelocity
    {
      position := body.position.Value();
      velocity := body.linearVelocity;
      angularVelocity := body.angularVelocity;
    }

    /** The state `Apply` writes: the kept position, the current value of the kept velocity vector, the kept spin. */
    function Restores(): (s: KinematicState)
      reads velocity
    {
      KinematicState(position, velocity.Value(), angularVelocity)
    }

    /**
     * apply: writes position, linear velocity and angular velocity into `to` and
     * changes nothing else. The velocity vector kept must not be `to`'s position
     * vector, which holds whenever it belongs to a body of the same world as `to`.
     */
    method Apply(to: Body)
      requires to.Valid() && velocity != to.position
      modifies to.position, to.linearVelocity, to`angularVelocity
      ensures to.State() == old(Restores())
      ensures to.fixtures == old(to.fixtures)
    {
      to.SetPosition(position);
      to.SetLinearVelocity(velocity.Value());
      to.SetAngularVelocity(angularVelocity);
    }
  }

  /** Capturing a body and applying the snapshot straight back leaves its state as it was. */
  method CaptureApply(b: Body)
    requires b.Valid()
    modifies b.position, b.linearVelocity, b`angularVelocity
    ensures b.State() == old(b.State())
    ensures b.fixtures == old(b.fixtures)
  {
    var snapshot := new BodySnapshot(b);
    snapshot.Apply(b);
  }

  /**
   * Capturing a body, letting its state change to (p, v, w), then applying the snapshot
   * restores the captured position and spin but leaves the velocity at the changed `v`:
   * whenever `v` differs from the captured velocity, the captured state is not restored.
   */
  method RestoreAfterChange(b: Body, p: XY, v: XY, w: real)
    requires b.Valid()
    modifies b.position, b.linearVelocity, b`angularVelocity
    ensures b.State() == KinematicState(old(b.position.Value()), v, old(b.angularVelocity))
    ensures v != old(b.linearVelocity.Value()) ==> b.State() != old(b.State())
  {
    var snapshot := new BodySnapshot(b);
    b.SetPosition(p);
    b.SetLinearVelocity(v);
    b.SetAngularVelocity(w);
    snapshot.Apply(b);
  }

  /** The snapshot with the velocity cloned like the position: all three parts are values. */
  class ClonedSnapshot {
    const position: XY
    const velocity: XY
    const angularVelocity: real

    constructor (body: Body)
      ensures Captured() == body.State()
    {
      position := body.position.Value();
      velocity := body.linearVelocity.Value();
      angularVelocity := body.angularVelocity;
    }

    function Captured(): (s: KinematicState) {
      KinematicState(position, velocity, angularVelocity)
    }

    /** Writes the captured state into `to` and changes nothing else. */
    method Apply(to: Body)
      requires to.Valid()
      modifies to.position, to.linearVelocity, to`angularVelocity
      ensures to.State() == Captured()
      ensures to.fixtures == old(to.fixtures)
    {
      to.SetPosition(position);
      to.SetLinearVelocity(velocity);
      to.SetAngularVelocity(angularVelocity);
    }
  }

  /** With the cloned snapshot, whatever the body does after capture, applying restores the captured state. */
  method ClonedRestoreAfterChange(b: Body, p: XY, v: XY, w: real)
    requires b.Valid()
    modifies b.position, b.linearVelocity, b`angularVelocity
    ensures b.State() == old(b.State())
    ensures b.fixtures == old(b.fixtures)
  {
    var snapshot := new ClonedSnapshot(b);
    b.SetPosition(p);
    b.SetLinearVelocity(v);
    b.SetAngularVelocity(w);
    snapshot.Apply(b);
  }
}
