/**
 * An abstract stand-in for the parts of the Box2D engine (`@flyover/box2d`) that
 * src/lib/Bodies.ts uses: vectors, body and fixture definitions, bodies and a world
 * whose body list only grows. Stepping, the solver and collision detection are not
 * part of this model.
 */
module Engine {
  import opened Options
  import opened Taxonomy

  /** A plain pair of coordinates (Box2D's `XY` read as a value). */
  datatype XY = XY(x: real, y: real)

  const ZERO: XY := XY(0.0, 0.0)

  /**
   * A live vector object (`b2Vec2`) owned by a body. The engine's getters hand out
   * the object itself, and its setters copy new coordinates into it in place, so
   * whoever kept the reference sees every later change.
   */
  class Vec2 {
    var x: real
    var y: real

    constructor (v: XY)
      ensures Value() == v
    {
      x, y := v.x, v.y;
    }

    function Value(): (v: XY)
      reads this
    {
      XY(x, y)
    }
  }

  datatype MotionType = Static | Kinematic | Dynamic

  /** A chain vertex in polar form: it stands for (radius·cos(π·halfTurns), radius·sin(π·halfTurns)). */
  datatype PolarPoint = PolarPoint(radius: real, halfTurns: real)

  /** The collision shapes the builders use, as opaque geometry. */
  datatype Shape =
    | Box(halfWidth: real, halfHeight: real)
    | Circle(center: XY, radius: real)
    | Loop(vertices: seq<PolarPoint>)

  /**
   * A fixture definition. A material value the builder never sets is `None`: it keeps
   * the engine's default, which this model does not fix.
   */
  datatype FixtureDef = FixtureDef(shape: Shape, density: Option<real>, restitution: Option<real>, friction: Option<real>)

  /** A body definition (`b2BodyDef`); the engine's default motion type is static. */
  datatype BodyDef = BodyDef(motion: MotionType, position: XY, userData: Option<Tag>, linearDamping: Option<real>)

  const DEFAULT_BODY_DEF: BodyDef := BodyDef(Static, ZERO, None, None)

  /** The kinematic state of a body: what a snapshot captures and restores. */
  datatype KinematicState = KinematicState(position: XY, linearVelocity: XY, angularVelocity: real)

  /** A rigid body. Its position and linear velocity are vector objects it owns. */
  class Body {
    const userData: Option<Tag>
    const motion: MotionType
    const linearDamping: Option<real>
    const position: Vec2
    const linearVelocity: Vec2
    var angularVelocity: real
    var fixtures: seq<FixtureDef>

    /** The body's two vectors are distinct objects. */
    ghost predicate Valid() {
      position != linearVelocity
    }

    function State(): (s: KinematicState)
      reads this, position, linearVelocity
    {
      KinematicState(position.Value(), linearVelocity.Value(), angularVelocity)
    }

    /** A new body starts at the definition's position, at rest and without fixtures. */
    constructor (def: BodyDef)
      ensures Valid() && fresh(position) && fresh(linearVelocity)
      ensures userData == def.userData && motion == def.motion && linearDamping == def.linearDamping
      ensures State() == KinematicState(def.position, ZERO, 0.0)
      ensures fixtures == []
    {
      userData := def.userData;
      motion := def.motion;
      linearDamping := def.linearDamping;
      position := new Vec2(def.position);
      linearVelocity := new Vec2(ZERO);
      angularVelocity := 0.0;
      fixtures := [];
    }

    method CreateFixture(f: FixtureDef)
      modifies this`fixtures
      ensures fixtures == old(fixtures) + [f]
    {
      fixtures := fixtures + [f];
    }

    /** Copies `p` into the body's own position vector. */
    method SetPosition(p: XY)
      modifies position
      ensures position.Value() == p
    {
      position.x, position.y := p.x, p.y;
    }

    /** Copies `v` into the body's own velocity vector. */
    method SetLinearVelocity(v: XY)
      modifies linearVelocity
      ensures linearVelocity.Value() == v
    {
      linearVelocity.x, linearVelocity.y := v.x, v.y;
    }

    method SetAngularVelocity(w: real)
      modifies this`angularVelocity
      ensures angularVelocity == w
    {
      angularVelocity := w;
    }
  }

  /** No two bodies share an object: neither themselves nor any of their vectors. */
  ghost predicate Disjoint(a: Body, b: Body) {
    && a != b
    && a.position != b.position && a.position != b.linearVelocity
    && a.linearVelocity != b.position && a.linearVelocity != b.linearVelocity
  }

  /** A simulated world: a gravity vector and the list of bodies created in it. */
  class World {
    const gravity: XY
    var bodies: seq<Body>

    ghost predicate Valid()
      reads this
    {
      && (forall i :: 0 <= i < |bodies| ==> bodies[i].Valid())
      && (forall i, j :: 0 <= i < |bodies| && 0 <= j < |bodies| && i != j ==> Disjoint(bodies[i], bodies[j]))
    }

    constructor (gravity: XY)
      ensures Valid() && this.gravity == gravity && bodies == []
    {
      this.gravity := gravity;
      bodies := [];
    }

    /** Creates a body from `def` and appends it; the bodies already there stay as they are. */
    method CreateBody(def: BodyDef) returns (b: Body)
      requires Valid()
      modifies this
      ensures Valid() && fresh(b) && fresh(b.position) && fresh(b.linearVelocity)
      ensures bodies == old(bodies) + [b]
      ensures b.userData == def.userData && b.motion == def.motion && b.linearDamping == def.linearDamping
      ensures b.State() == KinematicState(def.position, ZERO, 0.0)
      ensures b.fixtures == []
    {
      b := new Body(def);
      bodies := bodies + [b];
    }
  }

  /** A contact as the classifier sees it: the bodies of its fixtures A and B. */
  datatype Contact = Contact(bodyA: Body, bodyB: Body)
  {
    /** The same contact reported with its two fixtures the other way round. */
    function Swapped(): (c: Contact) {
      Contact(bodyB, bodyA)
    }
  }
}
