# Physics module model

A Dafny model of the physics module view (`GLViewPhysicsModule`). This
module couples a PhysX scene to the scene graph of an engine and mirrors the
scene to one networked peer. It covers four parts of the module:

- **The pose remap.** Each frame turns a physics-engine pose (a 4x4 matrix
  read through its `(row, col)` accessor) into the flat 16-entry array that a
  scene matrix is built from. The model treats this as a generic
  permutation of sixteen entries (module `Pose`).
- **The per-frame loop (`updateWorld`).** The physics engine reports its
  active actors. For each one, the loop reads the actor's `(object, actor)`
  user-data pair and looks up the object's network id in the registry of
  placed cubes. It sends an orientation message, then applies the converted
  pose to the object's display matrix and position. The modules are
  `Sync` (specification) and `View.PhysicsModule.UpdateWorld` (the loop).
- **The key handler (`onKeyDown`).**
  - Key 0 sets one physics step per render.
  - Key 1 moves the drop zone and the track sphere to the camera and
    announces the move.
  - Key 2 creates a cube at the drop zone and adds it to the world. It
    announces the cube, creates and binds a dynamic box actor, and
    registers the cube under the spawn counter.

  The handler's function-local statics (`dropPos`, `cubes`) become fields of
  the class.
- **Start-up.** The objects the map loader creates, and the choice of the
  network peer from the configured listen port (module `Peer`).

The field `trace : seq<Event>` records, in order, the calls the module makes
on the network, the scene and the physics scene after start-up: network
sends, object creation, position and display-matrix updates, adds to the
world list, and actor binds. Key 0's change of the physics step rate is a
field of the class (`stepsPerRender`), not a trace entry.
"Sent before applied" and "nothing else is sent" become statements about
that sequence. The registry `placed_cubes` is a C++ `std::map`:

- `insert` never overwrites (`Registry.Insert`);
- `operator[]` default-inserts 0 for a missing key (`Registry.Subscript`).

The loop looks ids up with `operator[]`. The model keeps that lookup and
proves that, for an active cube, it never inserts. So the registry is
unchanged by a frame.

## Model

| member | source | states |
|---|---|---|
| Pose.ConvertPlacement | PhysicsModule/src/GLViewPhysicsModule.cpp:144-147 | pose(r, c) lands in slot Slot(r, c) of the converted array: the upper 3x3 block row by row, pose(3, c) in slots 3, 7, 11, pose(r, 3) in slots 12..14, pose(3, 3) in slot 15 |
| Pose.SlotBijection | PhysicsModule/src/GLViewPhysicsModule.cpp:144-147 | Slot and Cell are mutual inverses, so the sixteen (row, col) cells and the sixteen slots correspond one to one |
| Pose.RecoverConvert | PhysicsModule/src/GLViewPhysicsModule.cpp:144-149 | the pose is recovered unchanged from its converted array: no entry is lost or duplicated |
| Pose.ConvertRecover | PhysicsModule/src/GLViewPhysicsModule.cpp:144-149 | every 16-entry array is the conversion of exactly the pose Recover reads from it (the remap is onto) |
| Pose.ConvertIsPermutation | PhysicsModule/src/GLViewPhysicsModule.cpp:144-147 | the converted array holds the same multiset of entries as the pose |
| Pose.ConvertExchanges | PhysicsModule/src/GLViewPhysicsModule.cpp:144-147 | read row by row, the remap only exchanges entries 3, 7, 11 with entries 12, 13, 14 and leaves the other ten in place |
| Pose.SwapKeepsMultiset | PhysicsModule/src/GLViewPhysicsModule.cpp:144-147 | exchanging two entries keeps the length and the multiset of entries |
| Pose.ConvertLocation | PhysicsModule/src/GLViewPhysicsModule.cpp:152 | the location read from slots 12..14 is the pose's translation column pose(0,3), pose(1,3), pose(2,3) |
| Peer.PeerPort | PhysicsModule/src/GLViewPhysicsModule.cpp:112-117 | the client connects to port 12682 exactly when the listen port is 12683, and to 12683 otherwise |
| Peer.PeerPairing | PhysicsModule/src/GLViewPhysicsModule.cpp:112-117 | for either of the two ports, the peer is the other port, and the peer's peer is the instance itself |
| Scene.MessagesAppend | PhysicsModule/src/GLViewPhysicsModule.cpp:155 | the messages sent by two call sequences in a row are those of the first followed by those of the second |
| Registry.Insert | PhysicsModule/src/GLViewPhysicsModule.cpp:232 | insert adds the key, keeps every existing entry unchanged (no overwrite), and stores the value only for a new key |
| Registry.Subscript | PhysicsModule/src/GLViewPhysicsModule.cpp:154 | operator[] returns the stored id for a present key; for a missing key it inserts and returns 0; other entries are kept |
| Registry.RegisterFresh | PhysicsModule/src/GLViewPhysicsModule.cpp:232-233 | for a cube not spawned before, the map's insert under the current count gives exactly the registry after that spawn |
| Registry.RegisteredKeys | PhysicsModule/src/GLViewPhysicsModule.cpp:232-233 | the registry holds exactly the spawned cubes |
| Registry.RegisteredIds | PhysicsModule/src/GLViewPhysicsModule.cpp:232-233 | of distinct spawns, the i-th cube is registered under id i |
| Registry.RegisteredIdsAreDense | PhysicsModule/src/GLViewPhysicsModule.cpp:232-233 | after n distinct spawns, the ids in use are exactly 0..n-1 and no two cubes share an id: no gaps and no repeats |
| Sync.PositionOfConvert | PhysicsModule/src/GLViewPhysicsModule.cpp:159 | an object moved by a pose is placed at the pose's translation column pose(0,3), pose(1,3), pose(2,3) |
| Sync.AssignedElsewhere | PhysicsModule/src/GLViewPhysicsModule.cpp:157-159 | after the per-object updates of a frame, each updated object has an entry; any other object keeps its entry or its absence |
| Sync.AssignedAt | PhysicsModule/src/GLViewPhysicsModule.cpp:157-159 | when no object is updated twice, each updated object ends with the value given for it |
| Sync.AssignedSnoc | PhysicsModule/src/GLViewPhysicsModule.cpp:139-160 | one more loop iteration sets one more object's entry on top of the earlier ones |
| Sync.OrientationMsgFaithful | PhysicsModule/src/GLViewPhysicsModule.cpp:149-154 | an orientation message carries the pose's translation column as location, and as orientation a matrix from which the pose reads back unchanged; its id is the registered id of the actor's object |
| Sync.ActorMessages | PhysicsModule/src/GLViewPhysicsModule.cpp:151-159 | the calls for one active actor send exactly one message, its orientation message |
| Sync.FrameEventsStep | PhysicsModule/src/GLViewPhysicsModule.cpp:139-160 | the calls for actor i follow the calls made for the actors before it |
| Sync.FrameEventsAt | PhysicsModule/src/GLViewPhysicsModule.cpp:139-160 | a frame makes three calls per active actor, in the engine's order: the send, then the display matrix, then the position of that actor's object |
| Sync.FrameMessages | PhysicsModule/src/GLViewPhysicsModule.cpp:137-160 | a frame sends exactly one message per active actor, and the i-th message is the i-th actor's orientation message |
| Sync.FrameApplied | PhysicsModule/src/GLViewPhysicsModule.cpp:151-159 | each active actor's object ends the frame at the location, and with the display matrix, that its message carried; objects of no active actor keep their position and matrix |
| Sync.SyncIdIsSpawnIndex | PhysicsModule/src/GLViewPhysicsModule.cpp:154 | the id a frame sends for a cube is its position in the spawn order |
| View.DropZoneAnnounced | PhysicsModule/src/GLViewPhysicsModule.cpp:198-207 | key 1 sends exactly one message, a sphere move carrying the new drop position |
| View.SpawnAnnounced | PhysicsModule/src/GLViewPhysicsModule.cpp:209-229 | key 2 creates the cube from the cube model with unit scale and positions it at the drop zone; it sends exactly one message, describing that cube; the actor is bound only after that message |
| View.SpawnKeepsInvariants | PhysicsModule/src/GLViewPhysicsModule.cpp:209-233 | spawning with fresh handles keeps the invariants: the counter equals the number of spawns, ids are the spawn indices, every bound pair's object is registered, no object has two actors, and every object has a position; the insert adds the cube under the old counter |
| View.FramePreservesObjects | PhysicsModule/src/GLViewPhysicsModule.cpp:157-159 | moving registered objects adds and removes no position entry, so the object invariant still holds |
| View.ActiveObjectsDistinct | PhysicsModule/src/GLViewPhysicsModule.cpp:138-140 | distinct active actors bound to pairs are paired with distinct objects |
| View.PhysicsModule.constructor | PhysicsModule/src/GLViewPhysicsModule.cpp:294-330 | after start-up (map loader here; key-handler statics at lines 191-192; peer choice at 112-117): the drop position is (20,20,100) and the counter is 0; the registry is empty; the world list is light, sky box, grass, track sphere at their loader positions; the ground plane is bound to the grass object; the peer is chosen by PeerPort; the four loader objects are distinct fresh handles |
| View.PhysicsModule.UpdateWorld | PhysicsModule/src/GLViewPhysicsModule.cpp:127-161 | a frame keeps the module invariant and leaves the registry unchanged; its calls are exactly FrameEvents of the active list; positions and display matrices are the old ones updated at each active actor's object with its converted pose; no object is updated twice |
| View.PhysicsModule.SyncActives | PhysicsModule/src/GLViewPhysicsModule.cpp:137-160 | the loop over the active actors makes exactly the frame's calls, applies each converted pose in order, and leaves the registry unchanged |
| View.PhysicsModule.SyncActor | PhysicsModule/src/GLViewPhysicsModule.cpp:140-159 | for one active actor: the registry lookup does not change the registry; the calls are the send, display matrix and position for that actor's object; only that object's position and matrix change |
| View.PhysicsModule.PlaceDropZone | PhysicsModule/src/GLViewPhysicsModule.cpp:198-207 | key 1 keeps the invariant; the drop position becomes the camera position and the track sphere moves there before the move is announced |
| View.PhysicsModule.Spawn | PhysicsModule/src/GLViewPhysicsModule.cpp:209-234 | key 2 keeps the invariant; it adds the cube to the world at the drop zone, makes the spawn calls in source order, and binds the new actor to the (cube, actor) pair; it registers the cube under the old counter, which advances by one |
| View.PhysicsModule.AddCube | PhysicsModule/src/GLViewPhysicsModule.cpp:212-214 | the cube is created from the cube model with unit scale, placed at the drop zone and appended to the world list |
| View.PhysicsModule.BindActor | PhysicsModule/src/GLViewPhysicsModule.cpp:224-229 | a dynamic box with half extent 2 and density 10 is created at the drop zone; it is added to the physics scene carrying the (cube, actor) pair |
| View.PhysicsModule.Register | PhysicsModule/src/GLViewPhysicsModule.cpp:232-233 | the registry gains the cube under the current counter without overwriting, and the counter advances by one |
| View.PhysicsModule.OnKeyDown | PhysicsModule/src/GLViewPhysicsModule.cpp:188-235 | the key handler keeps the invariant. Key 0 sets one step per render. Key 1 moves the drop zone. Key 2 spawns a cube. Any other key changes nothing; no key touches a display matrix |

## Left out

- The physics step itself (`simulate` with the elapsed time divided by 1000, `fetchResults`): the engine's active list and the new poses are parameters of `UpdateWorld`.
- Floating point: coordinates and matrix entries are `real`s that are only copied, never computed with; the remap is proved generic in the entry type.
- The network transport: a synchronous TCP send is the `Sent` entry it appends to the trace; the peer host (127.0.0.1) is kept as a constant, and connection failures are not modelled.
- The renderer and the rest of the map loader: clipping planes, axes, the camera's start position, the light's display matrix and ambient level, sky-box textures, grass skin colours, object labels, render order and the unused way points. The `display` field records only matrices set by the frame loop.
- Handle allocation: the new cube object and physics actor handles are parameters of `OnKeyDown`/`Spawn`, required not to be live already; the camera position and the shared multimedia directory are parameters too.
- The physics manager's `init`/`shutdown` and the material shared by the key handler (`gMaterial`): friction and restitution constants are not modelled.
- The base view's own per-frame update (called first in `updateWorld`) and its key, mouse and resize handling that each handler calls first.
- The engine setup at the start of `onCreate`: the gravity direction and magnitude and the camera chase mode.
- View.PhysicsModule.Spawn: the counter `cubes` is an unbounded integer; the source's 32-bit `int` would overflow after 2^31 spawns, which the model does not capture.
- View.PhysicsModule.UpdateWorld: requires every active actor to carry an (object, actor) pair with a pose, and the actors to be distinct. The source casts the user data without a check; only the static ground plane carries a bare object, and static actors are never reported active.
- View.PhysicsModule.constructor: the calls made during start-up are not logged; the trace starts empty. The light, sky box, grass and track sphere handles are required to differ, as the four allocations of the map loader do.
