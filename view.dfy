/** The physics module's view object: the state it keeps across frames and
    key presses (the drop zone, the spawn counter, the registry of placed
    cubes) and the engine state it changes (world list, object positions and
    display matrices, the physics scene and the actors' user data). Every
    call it makes on the scene, the physics engine and the network is logged
    in `trace`, in order. */
module View {
  import opened Scene
  import opened Pose
  import opened Registry
  import opened Sync
  import Peer

  /** SDL key codes of the three keys the module handles. */
  const Key0: int := 48
  const Key1: int := 49
  const Key2: int := 50

  const CubeModelSuffix := "/models/cube4x4x4redShinyPlastic_pp.wrl"
  const UnitScale := Vec3(1.0, 1.0, 1.0)
  const InitialDropPos := Vec3(20.0, 20.0, 100.0)
  const CubeHalfExtent: real := 2.0
  const CubeDensity: real := 10.0

  /** The cube's model path under the shared multimedia directory. */
  function CubeModel(smm: string): string
  {
    smm + CubeModelSuffix
  }

  /** The calls key 1 makes: move the track sphere, then announce it. */
  function DropZoneEvents(sphere: ObjId, at: Vec3): seq<Event>
  {
    [Positioned(sphere, at), Sent(MoveSphere(at))]
  }

  /** The calls key 2 makes: create the cube at the drop zone and add it to
      the world, announce it, then create its physics actor and bind it. */
  function SpawnEvents(wo: ObjId, actor: ActorId, at: Vec3, smm: string): seq<Event>
  {
    [Created(wo, CubeModel(smm), UnitScale), Positioned(wo, at), AddedToWorld(wo),
     Sent(NewSharedObject(at, UnitScale, CubeModel(smm))),
     ActorBound(actor, DynamicBox(at, CubeHalfExtent, CubeDensity), Pair(wo, actor))]
  }

  /** Key 1 sends one message, and it carries the new drop position. */
  lemma DropZoneAnnounced(sphere: ObjId, at: Vec3)
    ensures Messages(DropZoneEvents(sphere, at)) == [MoveSphere(at)]
  {
    var e := DropZoneEvents(sphere, at);
    assert e[..1][..0] == [];
    assert e[..|e| - 1] == e[..1];
  }

  /** Key 2 sends exactly one message, describing the cube it created (its
      location, unit scale and model path), and binds the physics actor only
      after that message has gone out. */
  lemma SpawnAnnounced(wo: ObjId, actor: ActorId, at: Vec3, smm: string)
    ensures Messages(SpawnEvents(wo, actor, at, smm)) == [NewSharedObject(at, UnitScale, CubeModel(smm))]
    ensures Created(wo, CubeModel(smm), UnitScale) in SpawnEvents(wo, actor, at, smm)
    ensures Positioned(wo, at) in SpawnEvents(wo, actor, at, smm)
    ensures forall i ::
      (0 <= i < |SpawnEvents(wo, actor, at, smm)| && SpawnEvents(wo, actor, at, smm)[i].ActorBound?) ==>
        Messages(SpawnEvents(wo, actor, at, smm)[..i]) == Messages(SpawnEvents(wo, actor, at, smm))
  {
    var e := SpawnEvents(wo, actor, at, smm);
    assert e[..1][..0] == [];
    assert e[..2][..1] == e[..1];
    assert e[..3][..2] == e[..2];
    assert e[..4][..3] == e[..3];
    assert e[..|e| - 1] == e[..4];
    assert Messages(e[..1]) == [];
    assert Messages(e[..2]) == [];
    assert Messages(e[..3]) == [];
    assert Messages(e[..4]) == [NewSharedObject(at, UnitScale, CubeModel(smm))];
  }

  /** The spawn counter counts the distinct cubes spawned so far, and the
      registry maps each of them to its spawn index. */
  ghost predicate RegistryInv(cubes: int, spawned: seq<ObjId>, placed: map<ObjId, int>)
  {
    cubes == |spawned| && Distinct(spawned) && placed == Registered(spawned)
  }

  /** The physics scene holds exactly the actors with user data; a pair's
      actor is the actor carrying it, its object is registered, and no two
      actors are paired with the same object. */
  ghost predicate BindingInv(scene: set<ActorId>, userData: map<ActorId, UserData>,
                             placed: map<ObjId, int>)
  {
    && scene == userData.Keys
    && (forall a :: a in userData && userData[a].Pair? ==>
          userData[a].actor == a && userData[a].wo in placed)
    && (forall a, b ::
          (a in userData && b in userData && userData[a].Pair? && userData[b].Pair? &&
           userData[a].wo == userData[b].wo) ==> a == b)
  }

  /** Spawned cubes are in the world list, and every object of the world
      list, of the registry, and the track sphere has a position. */
  ghost predicate ObjectsInv(spawned: seq<ObjId>, placed: map<ObjId, int>, worldList: seq<ObjId>,
                             position: map<ObjId, Vec3>, sphere: ObjId)
  {
    && (forall x :: x in spawned ==> x in worldList)
    && (forall x :: x in worldList ==> x in position)
    && (forall x :: x in placed ==> x in position)
    && sphere in position
  }

  /** A spawn with fresh handles keeps the invariants; the registry insert
      then adds the new cube under the current counter. */
  lemma SpawnKeepsInvariants(cubes: int, spawned: seq<ObjId>, placed: map<ObjId, int>,
                             scene: set<ActorId>, userData: map<ActorId, UserData>,
                             worldList: seq<ObjId>, position: map<ObjId, Vec3>, sphere: ObjId,
                             wo: ObjId, actor: ActorId, at: Vec3)
    requires RegistryInv(cubes, spawned, placed)
    requires BindingInv(scene, userData, placed)
    requires ObjectsInv(spawned, placed, worldList, position, sphere)
    requires wo !in position && actor !in scene
    ensures Insert(placed, wo, cubes) == placed[wo := cubes]
    ensures RegistryInv(cubes + 1, spawned + [wo], placed[wo := cubes])
    ensures BindingInv(scene + {actor}, userData[actor := Pair(wo, actor)], placed[wo := cubes])
    ensures ObjectsInv(spawned + [wo], placed[wo := cubes], worldList + [wo],
                       position[wo := at], sphere)
  {
    RegisteredKeys(spawned);
    RegisterFresh(spawned, wo);
    assert wo !in spawned;
  }

  /** Moving registered objects adds no object: the positions after a
      frame over registered objects still satisfy ObjectsInv. */
  lemma FramePreservesObjects(spawned: seq<ObjId>, placed: map<ObjId, int>, worldList: seq<ObjId>,
                              position: map<ObjId, Vec3>, sphere: ObjId,
                              objs: seq<ObjId>, ps: seq<Vec3>)
    requires ObjectsInv(spawned, placed, worldList, position, sphere)
    requires |objs| == |ps| && forall i :: 0 <= i < |objs| ==> objs[i] in placed
    ensures Assigned(position, objs, ps).Keys == position.Keys
    ensures ObjectsInv(spawned, placed, worldList, Assigned(position, objs, ps), sphere)
  {
    AssignedElsewhere(position, objs, ps);
  }

  /** Distinct active actors that are bound to pairs are paired with
      distinct objects, so a frame moves every object at most once. */
  lemma ActiveObjectsDistinct(scene: set<ActorId>, userData: map<ActorId, UserData>,
                              placed: map<ObjId, int>, actives: seq<ActorId>,
                              poses: map<ActorId, seq<real>>)
    requires BindingInv(scene, userData, placed)
    requires Distinct(actives) && AllActiveCubes(actives, userData, poses, placed)
    ensures Distinct(Objects(actives, userData))
  {
    var objs := Objects(actives, userData);
    forall i, j | 0 <= i < j < |objs| ensures objs[i] != objs[j] {
      assert actives[i] != actives[j];
    }
  }

  class PhysicsModule {
    /** The persistent locals of the key handler. */
    var dropPos: Vec3
    var cubes: int
    /** Scene object -> network id of every cube placed so far. */
    var placedCubes: map<ObjId, int>
    const trackSphere: ObjId
    /** The host and port the network client connects to. */
    const peerHost: string
    const peerPort: string

    var worldList: seq<ObjId>
    var position: map<ObjId, Vec3>
    /** Display matrices the module assigned to scene objects. */
    var display: map<ObjId, seq<real>>
    /** Actors added to the physics scene, and the user data each carries. */
    var scene: set<ActorId>
    var userData: map<ActorId, UserData>
    var stepsPerRender: int
    var trace: seq<Event>

    /** The cubes spawned so far, in spawn order. */
    ghost var spawned: seq<ObjId>

    ghost predicate Valid()
      reads this
    {
      && RegistryInv(cubes, spawned, placedCubes)
      && BindingInv(scene, userData, placedCubes)
      && ObjectsInv(spawned, placedCubes, worldList, position, trackSphere)
    }

    /** The module right after start-up: the scene objects the map loader
        creates (light, sky box, grass floor, track sphere), the ground plane
        bound to the grass object, the statics at their initial values, and
        the network peer chosen from the configured listen port. The four
        objects are fresh allocations, so their handles differ. */
    constructor (listenPort: string, light: ObjId, sky: ObjId, grass: ObjId, sphere: ObjId,
                 ground: ActorId, steps: int)
      requires light != sky && light != grass && light != sphere
      requires sky != grass && sky != sphere && grass != sphere
      ensures Valid()
      ensures dropPos == InitialDropPos && cubes == 0 && placedCubes == map[] && spawned == []
      ensures peerHost == Peer.Host && peerPort == Peer.PeerPort(listenPort)
      ensures trackSphere == sphere && worldList == [light, sky, grass, sphere]
      ensures position == map[light := Vec3(0.0, 0.0, 100.0), sky := Vec3(0.0, 0.0, 0.0),
                              grass := Vec3(0.0, 0.0, 0.0), sphere := InitialDropPos]
      ensures display == map[] && scene == {ground} && userData == map[ground := Raw(grass)]
      ensures stepsPerRender == steps && trace == []
    {
      dropPos := InitialDropPos;
      cubes := 0;
      placedCubes := map[];
      trackSphere := sphere;
      peerHost := Peer.Host;
      peerPort := Peer.PeerPort(listenPort);
      worldList := [light, sky, grass, sphere];
      position := map[light := Vec3(0.0, 0.0, 100.0), sky := Vec3(0.0, 0.0, 0.0),
                      grass := Vec3(0.0, 0.0, 0.0), sphere := InitialDropPos];
      display := map[];
      scene := {ground};
      userData := map[ground := Raw(grass)];
      stepsPerRender := steps;
      trace := [];
      spawned := [];
    }

    /** One frame after the physics step: `actives` are the actors the
        engine reports as active, in its order, and `poses` their new global
        poses. For each, an orientation message is sent, then the converted
        pose is applied to the paired object; the registry is not changed. */
    method UpdateWorld(actives: seq<ActorId>, poses: map<ActorId, seq<real>>)
      requires Valid()
      requires Distinct(actives)
      requires AllActiveCubes(actives, userData, poses, placedCubes)
      modifies this`position, this`display, this`trace, this`placedCubes
      ensures Valid()
      ensures placedCubes == old(placedCubes)
      ensures trace == old(trace) + FrameEvents(actives, |actives|, userData, poses, placedCubes)
      ensures position == Assigned(old(position), Objects(actives, userData), Positions(actives, poses))
      ensures display == Assigned(old(display), Objects(actives, userData), Matrices(actives, poses))
      ensures Distinct(Objects(actives, userData))
    {
      ActiveObjectsDistinct(scene, userData, placedCubes, actives, poses);
      SyncActives(actives, poses);
      FramePreservesObjects(spawned, placedCubes, worldList, old(position), trackSphere,
                            Objects(actives, userData), Positions(actives, poses));
    }

    /** The loop over the active actors. */
    method SyncActives(actives: seq<ActorId>, poses: map<ActorId, seq<real>>)
      requires AllActiveCubes(actives, userData, poses, placedCubes)
      modifies this`position, this`display, this`trace, this`placedCubes
      ensures placedCubes == old(placedCubes)
      ensures trace == old(trace) + FrameEvents(actives, |actives|, userData, poses, placedCubes)
      ensures position == Assigned(old(position), Objects(actives, userData), Positions(actives, poses))
      ensures display == Assigned(old(display), Objects(actives, userData), Matrices(actives, poses))
    {
      ghost var objs, ps, mats := Objects(actives, userData), Positions(actives, poses), Matrices(actives, poses);
      ghost var t0, ud, pc, p0, d0 := trace, userData, placedCubes, position, display;
      var i := 0;
      while i < |actives|
        invariant 0 <= i <= |actives|
        invariant placedCubes == pc && userData == ud
        invariant trace == t0 + FrameEvents(actives, i, ud, poses, pc)
        invariant position == Assigned(p0, objs[..i], ps[..i])
        invariant display == Assigned(d0, objs[..i], mats[..i])
      {
        AssignedSnoc(p0, objs, ps, i);
        AssignedSnoc(d0, objs, mats, i);
        FrameEventsStep(t0, actives, i, ud, poses, pc);
        SyncActor(actives[i], poses);
        i := i + 1;
      }
      assert objs[..i] == objs && ps[..i] == ps && mats[..i] == mats;
    }

    /** The loop body for one active actor: look its object up in the
        registry, send the orientation message, then apply the converted
        pose to the object's display matrix and position. */
    method SyncActor(a: ActorId, poses: map<ActorId, seq<real>>)
      requires ActiveCube(a, userData, poses, placedCubes)
      modifies this`position, this`display, this`trace, this`placedCubes
      ensures placedCubes == old(placedCubes)
      ensures trace == old(trace) + ActorEvents(a, userData, poses, placedCubes)
      ensures position == old(position)[userData[a].wo := PositionOf(Convert(poses[a]))]
      ensures display == old(display)[userData[a].wo := Convert(poses[a])]
    {
      var combo := userData[a];
      var mat := Convert(poses[combo.actor]);
      var lookup := Subscript(placedCubes, combo.wo);
      placedCubes := lookup.0;
      var msg := ObjectOrientation(Vec3(mat[12], mat[13], mat[14]), mat, lookup.1);
      trace := trace + [Sent(msg)];
      display := display[combo.wo := mat];
      trace := trace + [DisplaySet(combo.wo, mat)];
      position := position[combo.wo := Vec3(mat[12], mat[13], mat[14])];
      trace := trace + [Positioned(combo.wo, Vec3(mat[12], mat[13], mat[14]))];
    }

    /** Key 1: the drop zone moves to the camera, the track sphere follows,
        and the new position is announced. */
    method PlaceDropZone(cam: Vec3)
      requires Valid()
      modifies this`dropPos, this`position, this`trace
      ensures Valid()
      ensures dropPos == cam
      ensures position == old(position)[trackSphere := cam]
      ensures trace == old(trace) + DropZoneEvents(trackSphere, cam)
    {
      dropPos := cam;
      position := position[trackSphere := dropPos];
      trace := trace + [Positioned(trackSphere, dropPos)];
      trace := trace + [Sent(MoveSphere(dropPos))];
    }

    /** Key 2: a cube is created at the drop zone and added to the world, a
        spawn message is sent, a dynamic box actor is created there and
        bound to the (cube, actor) pair, and the cube is registered under the
        current counter, which then advances. `wo` and `actor` are the
        handles the engine allocates. */
    method Spawn(smm: string, wo: ObjId, actor: ActorId)
      requires Valid()
      requires wo !in position && actor !in scene
      modifies this`worldList, this`position, this`trace, this`scene, this`userData
      modifies this`placedCubes, this`cubes, this`spawned
      ensures Valid()
      ensures worldList == old(worldList) + [wo]
      ensures position == old(position)[wo := dropPos]
      ensures trace == old(trace) + SpawnEvents(wo, actor, dropPos, smm)
      ensures scene == old(scene) + {actor}
      ensures userData == old(userData)[actor := Pair(wo, actor)]
      ensures spawned == old(spawned) + [wo]
      ensures placedCubes == old(placedCubes)[wo := old(cubes)] && cubes == old(cubes) + 1
    {
      SpawnKeepsInvariants(cubes, spawned, placedCubes, scene, userData, worldList, position,
                           trackSphere, wo, actor, dropPos);
      ghost var t0 := trace;
      AddCube(smm, wo);
      trace := trace + [Sent(NewSharedObject(dropPos, UnitScale, CubeModel(smm)))];
      BindActor(wo, actor);
      assert trace == t0 + SpawnEvents(wo, actor, dropPos, smm);
      Register(wo);
    }

    /** The cube is registered under the current counter, which advances. */
    method Register(wo: ObjId)
      modifies this`placedCubes, this`cubes, this`spawned
      ensures placedCubes == Insert(old(placedCubes), wo, old(cubes))
      ensures cubes == old(cubes) + 1 && spawned == old(spawned) + [wo]
    {
      placedCubes := Insert(placedCubes, wo, cubes);
      cubes := cubes + 1;
      spawned := spawned + [wo];
    }

    /** A cube object is created from the cube model at the drop zone and
        added to the world list. */
    method AddCube(smm: string, wo: ObjId)
      modifies this`worldList, this`position, this`trace
      ensures worldList == old(worldList) + [wo]
      ensures position == old(position)[wo := dropPos]
      ensures trace == old(trace) + [Created(wo, CubeModel(smm), UnitScale), Positioned(wo, dropPos), AddedToWorld(wo)]
    {
      trace := trace + [Created(wo, CubeModel(smm), UnitScale)];
      position := position[wo := dropPos];
      trace := trace + [Positioned(wo, dropPos)];
      worldList := worldList + [wo];
      trace := trace + [AddedToWorld(wo)];
    }

    /** A dynamic box actor is created at the drop zone and bound to the
        (cube, actor) pair. */
    method BindActor(wo: ObjId, actor: ActorId)
      modifies this`scene, this`userData, this`trace
      ensures scene == old(scene) + {actor}
      ensures userData == old(userData)[actor := Pair(wo, actor)]
      ensures trace == old(trace) + [ActorBound(actor, DynamicBox(dropPos, CubeHalfExtent, CubeDensity), Pair(wo, actor))]
    {
      var body := DynamicBox(dropPos, CubeHalfExtent, CubeDensity);
      var combo := Pair(wo, actor);
      userData := userData[actor := combo];
      scene := scene + {actor};
      trace := trace + [ActorBound(actor, body, combo)];
    }

    /** The key handler: key 0 sets one physics step per render, key 1
        places the drop zone at the camera, key 2 spawns a cube; any other
        key changes nothing here. */
    method OnKeyDown(key: int, cam: Vec3, smm: string, wo: ObjId, actor: ActorId)
      requires Valid()
      requires key == Key2 ==> wo !in position && actor !in scene
      modifies this
      ensures Valid()
      ensures stepsPerRender == if key == Key0 then 1 else old(stepsPerRender)
      ensures dropPos == if key == Key1 then cam else old(dropPos)
      ensures position == if key == Key1 then old(position)[trackSphere := cam]
                          else if key == Key2 then old(position)[wo := old(dropPos)]
                          else old(position)
      ensures trace == old(trace) + (if key == Key1 then DropZoneEvents(trackSphere, cam)
                                     else if key == Key2 then SpawnEvents(wo, actor, old(dropPos), smm)
                                     else [])
      ensures worldList == if key == Key2 then old(worldList) + [wo] else old(worldList)
      ensures scene == if key == Key2 then old(scene) + {actor} else old(scene)
      ensures userData == if key == Key2 then old(userData)[actor := Pair(wo, actor)] else old(userData)
      ensures spawned == if key == Key2 then old(spawned) + [wo] else old(spawned)
      ensures placedCubes == if key == Key2 then old(placedCubes)[wo := old(cubes)] else old(placedCubes)
      ensures cubes == if key == Key2 then old(cubes) + 1 else old(cubes)
      ensures display == old(display)
    {
      if key == Key0 {
        stepsPerRender := 1;
      }
      if key == Key1 {
        PlaceDropZone(cam);
      }
      if key == Key2 {
        Spawn(smm, wo, actor);
      }
    }
  }
}
