# Slime volley: physics-world assembly and contact classification

This project models the physics core of a two-player slime-volley game. The source
is `src/lib/Bodies.ts`, and every property below is proved by Dafny. It covers:

- the body taxonomy: the user data `GROUND`, `BALL` or `PLAYER` with a player index;
- `getContactBodies`, which turns a contact between two bodies into a player slot, a ball slot and a ground slot;
- `createWorld`, which builds the ground, the net and the ball;
- `createPlayer`, which adds a kinematic paddle whose outline is a chain of vertices sampled from a half-circle;
- `BodySnapshot`, which captures a body's position, linear velocity and angular velocity and writes them back.

The Box2D engine is replaced by a small abstract engine (module `Engine`):

- Bodies. A `Body` has its user data, motion type, linear damping and fixture list. Its position and linear velocity are live vector objects (`Vec2`) that the body owns. Box2D's getters hand out these objects themselves, and its setters copy new coordinates into them in place. The model keeps that, so two references to the same vector can be told apart from two equal values.
- The world. A `World` holds the gravity vector and the list of bodies created in it. The list only grows.
- Invariant. `World.Valid` says that no two bodies share a body object or a vector object.
- Shapes and materials are opaque data. A material value the source never sets is `None`, meaning "the engine's default".
- Chain vertices are held in polar form, `(radius, angle / π)`.

The numeric configuration of `src/lib/Constants.ts` that these functions read is copied as exact reals (module `Constants`). Modules: `Options`, `Taxonomy`, `Constants`, `Engine`, `Bodies`.

## Model

| member | source | states |
|---|---|---|
| `Bodies.HasKind` | src/lib/Bodies.ts:102-104 | the test `m_userData?.kind == k`: the body has user data and its kind is k; false for a body without user data |
| `Bodies.Find` | src/lib/Bodies.ts:102-104 | `Array.prototype.find` with the kind test: the result, when present, belongs to the list and carries the kind; it is absent exactly when no body of the list carries the kind; and it is the first body that carries the kind |
| `Bodies.GetContactBodies` | src/lib/Bodies.ts:100-106 | for each of PLAYER, BALL and GROUND, the slot is either body A or body B and carries that kind; the slot is absent exactly when neither body carries the kind; when body A carries the kind, the slot is body A |
| `Bodies.SwapKeepsPresence` | src/lib/Bodies.ts:101-104 | swapping fixtures A and B never changes whether a slot is filled |
| `Bodies.SwapKeepsSlot` | src/lib/Bodies.ts:101-104 | unless both participants carry the kind, swapping A and B leaves the slot holding the same body |
| `Bodies.BothPlayersPicksBodyA` | src/lib/Bodies.ts:101-102 | when both participants are players, the player slot is body A, and body B once swapped, so `find` makes the result order-dependent. That this is the only order-dependent case in the worlds the builders make follows from `SwapKeepsSlot` with `SwapKeepsBallAndGround`. In Box2D two kinematic bodies never form a contact, so the running game never reaches this case |
| `Bodies.SwapKeepsBallAndGround` | src/lib/Bodies.ts:100-106 | in a body list with at most one BALL and at most one GROUND (such as the list CreateWorld builds), the ball and ground slots of any contact between two of its bodies do not depend on the order |
| `Bodies.UntaggedFillsNoSlot` | src/lib/Bodies.ts:102-104 | a body without user data, such as the net, never fills any slot |
| `Bodies.PlayerBallContact` | src/lib/Bodies.ts:100-105 | a contact, in either order, between a body tagged PLAYER(index) and a BALL gives that player with that index, gives the ball, and gives no ground |
| `Bodies.BallGroundContact` | src/lib/Bodies.ts:100-105 | a contact, in either order, between a BALL and a GROUND gives both of them and no player |
| `Bodies.AtMostOneTagged` | src/lib/Bodies.ts:102-104 | if at most one body of a list carries a kind, no two positions of the list both carry it (so `find` has only one candidate) |
| `Bodies.CreateWorld` | src/lib/Bodies.ts:32-73 | a fresh valid world with gravity (0, -GRAVITY) and exactly three bodies: a static ground tagged GROUND at (0, -GROUND_THICKNESS/2) with its box fixture; an untagged static net at (0, NET_HEIGHT/2) with its box fixture; a dynamic, damped ball tagged BALL at BALL_STARTING_POS with its circle fixture; all at rest; the returned handle is the BALL body; exactly one GROUND, exactly one BALL, no PLAYER |
| `Bodies.WorldTaxonomy` | src/lib/Bodies.ts:37-63 | the three bodies that createWorld tags GROUND, untagged and BALL hold one GROUND, one BALL and no PLAYER |
| `Bodies.StartX` | src/lib/Bodies.ts:78 | player 0 starts at -PLAYER_STARTING_POS (left of the net); every other index starts at +PLAYER_STARTING_POS (right of the net) |
| `Bodies.HalfTurns` | src/lib/Bodies.ts:85 | the angle of vertex p of N, divided by π: 1 - p/(N-1), for N >= 2 |
| `Bodies.HalfTurnsEnds` | src/lib/Bodies.ts:85 | the angle fraction 1 - p/(N-1) is 1 at p = 0 and 0 at p = N-1 |
| `Bodies.HalfTurnsDecreasing` | src/lib/Bodies.ts:85 | the angle fraction strictly decreases in p |
| `Bodies.HalfTurnsInRange` | src/lib/Bodies.ts:85 | for 0 <= p < N the angle fraction lies in [0, 1] |
| `Bodies.HalfTurnsMirror` | src/lib/Bodies.ts:85 | vertices p and N-1-p have angles θ and π-θ, so the dome is symmetric about the y-axis |
| `Bodies.ChainVertices` | src/lib/Bodies.ts:83-90 | the vertex loop yields exactly N points, point p at angle π·(1 - p/(N-1)) on the given radius; the first is at angle π and the last at 0; the angles strictly decrease, stay within [0, π] and mirror about the y-axis |
| `Bodies.CreatePlayer` | src/lib/Bodies.ts:75-98 | appends exactly one fresh kinematic body tagged PLAYER(playerIndex), at rest at (StartX(playerIndex), 0), whose single fixture is a loop of PLAYER_CHAIN_SIZE vertices of radius PLAYER_RADIUS with density 1 and the ball's restitution; bodies already in the world keep their state and fixtures; the PLAYER count grows by one and the BALL and GROUND counts stay the same |
| `Engine.World.CreateBody` | src/lib/Bodies.ts:40 | body creation appends one fresh body built from the definition, at rest with no fixtures, and keeps the world valid |
| `Engine.Body.CreateFixture` | src/lib/Bodies.ts:43 | attaching a fixture (here and on lines 55, 71 and 96) appends it to the body's fixture list and changes nothing else of the body |
| `Engine.Body.SetPosition` | src/lib/Bodies.ts:119 | the setter `apply` calls copies the new coordinates into the body's own position vector, in place, and touches no other object; Box2D's transform and fixture re-synchronisation are left out |
| `Engine.Body.SetLinearVelocity` | src/lib/Bodies.ts:120 | copies the new coordinates into the body's own velocity vector, in place (so every holder of that vector sees them), and touches nothing else; the engine's guard that ignores the call on a static body is left out |
| `Engine.Body.SetAngularVelocity` | src/lib/Bodies.ts:121 | sets the body's angular velocity and touches nothing else; the engine's static-body guard is left out |
| `Bodies.BodySnapshot.constructor` | src/lib/Bodies.ts:112-116 | the snapshot keeps the position's value (a clone), a reference to the body's own velocity vector (not a copy), and the angular velocity |
| `Bodies.BodySnapshot.Apply` | src/lib/Bodies.ts:118-122 | the target's position, linear velocity and angular velocity become the kept position, the current value of the kept velocity vector and the kept angular velocity; its fixtures are unchanged; nothing outside those three fields of the target is modified |
| `Bodies.CaptureApply` | src/lib/Bodies.ts:112-122 | capturing a body and applying the snapshot straight back leaves its position, linear velocity, angular velocity and fixtures as they were |
| `Bodies.RestoreAfterChange` | src/lib/Bodies.ts:113-121 | capture, then a change of the body's state to (p, v, w), then apply: the captured position and angular velocity come back but the velocity stays v, so the captured state is not restored whenever v differs from the captured velocity |
| `Bodies.ClonedSnapshot.constructor` | src/lib/Bodies.ts:112-116 | the corrected capture: the kept state equals the body's position, linear velocity and angular velocity at capture, all three as values |
| `Bodies.ClonedSnapshot.Apply` | src/lib/Bodies.ts:118-122 | the corrected snapshot writes exactly the captured state into the target and changes nothing else |
| `Bodies.ClonedRestoreAfterChange` | src/lib/Bodies.ts:112-122 | with the velocity cloned like the position, capture, then any change to the body's state, then apply restores the captured state exactly |

## Findings

| source | as written | input that shows it | evidently intended | confidence | as-written member | corrected member |
|---|---|---|---|---|---|---|
| src/lib/Bodies.ts:114 | The snapshot clones the position on line 113 but keeps the vector that the linear-velocity getter returns. In Box2D that vector is the body's own, and the engine updates it in place. So the snapshot's velocity follows the body after capture | Capture a ball moving at (1, 0). The body's velocity then becomes (0, 2), whether through a world step or a setter call. Apply the snapshot: the ball moves at (0, 2), not at the captured (1, 0) | The velocity is cloned like the position, so `apply` restores the velocity that was captured | medium, not executed; depends on the engine's getter returning the body's internal vector | `Bodies.RestoreAfterChange` | `Bodies.ClonedRestoreAfterChange` |

## Code over intent

In these places the model follows what `src/lib/Bodies.ts` does rather than what the game evidently intends:

- Player side. The game has two players, 0 and 1. The code on line 78 puts index 0 on the left and every other number on the right, and `StartX` and `CreatePlayer` model that.
- One paddle per player. A two-player game evidently wants one PLAYER body per index, but `createPlayer` (lines 75-98) appends a body on every call without checking, and the model does not add the check.
- Snapshot velocity. The position is cloned on line 113, so a copy of the whole state is evidently intended; the velocity on line 114 is not cloned and stays a live reference (see Findings). `BodySnapshot` models the code as written; `ClonedSnapshot` models the intended behaviour.

## Left out

- The Box2D engine itself: world stepping, the constraint solver, collision detection, mass data, sleeping, and the contact-listener hook. Body creation is modelled as appending to the world's body list.
- The contact dispatcher with its `onPlayerBall` / `onBallGround` callbacks. It is not in `src/lib/Bodies.ts`. `PlayerBallContact` and `BallGroundContact` state the classifications a dispatcher would rely on.
- Trigonometry. `Math.cos` / `Math.sin` are not evaluated; each chain vertex is kept as its radius and its angle divided by π.
- Floating point. All quantities are exact reals, so rounding in `1 - p/(N-1)` and in the constants is not modelled.
- JavaScript numbers. A player index is an integer; a fractional index is not modelled.
- Engine defaults. The material values the code never sets, and the default friction and restitution, are left as `None` (the engine's default). The default body type is static. New bodies start at rest.
- Engine setters. Box2D's setters have side effects that are not modelled: they ignore a velocity set on a static body, wake the body, and re-synchronise its fixtures after `SetPosition`.
- `Bodies.ChainVertices`: requires N >= 2. With N = 1 the source divides 0 by 0 and gets NaN. N = 0 is excluded as well, although there the source's loop runs zero times and returns an empty list. The source uses PLAYER_CHAIN_SIZE = 20.
- `Bodies.BodySnapshot.Apply`: requires the snapshot's velocity vector to differ from the target's position vector. The engine guarantees this, because every body owns its vectors (`World.Valid`, `Body.Valid`).
- The rest of `src/lib/Constants.ts`. The screen size reads the browser window. Controls, AI, jump and speed settings are not used by these functions. `BALL_STARTING_POS.vy` is copied but not used by `src/lib/Bodies.ts`.
- Deterministic construction. Separate `CreateWorld` calls build the same bodies because its postcondition fixes every position, velocity, tag and fixture. No separate member states this.
