/** Value types shared by the physics module's model: handles, vectors, the
    three network messages, the user data bound to a physics actor, and the
    calls the module makes on the scene, the physics scene and the network. */
module Scene {

  /** A scene (world) object, compared by identity. */
  type ObjId = nat

  /** A physics actor handle, compared by identity. */
  type ActorId = nat

  /** A vector; its floating-point components are never computed with. */
  datatype Vec3 = Vec3(x: real, y: real, z: real)

  /** The network messages the module sends. */
  datatype Msg =
    | ObjectOrientation(location: Vec3, orientation: seq<real>, woIndex: int)
    | NewSharedObject(location: Vec3, sizeScale: Vec3, modelPath: string)
    | MoveSphere(location: Vec3)

  /** What an actor's user data points at: the (object, actor) pair made at
      spawn time, or a bare scene object (the ground plane). */
  datatype UserData =
    | Pair(wo: ObjId, actor: ActorId)
    | Raw(wo: ObjId)

  /** The physics actor the key handler creates: a dynamic box at a
      position, with a half extent and a density. */
  datatype Body = DynamicBox(position: Vec3, halfExtent: real, density: real)

  /** One call the module makes, in the order it makes them. */
  datatype Event =
    | Sent(msg: Msg)
    | Created(wo: ObjId, modelPath: string, scale: Vec3)
    | Positioned(wo: ObjId, position: Vec3)
    | DisplaySet(wo: ObjId, matrix: seq<real>)
    | AddedToWorld(wo: ObjId)
    | ActorBound(actor: ActorId, body: Body, data: UserData)

  /** The messages among a sequence of calls, in order. */
  function Messages(t: seq<Event>): (ms: seq<Msg>)
    ensures |ms| <= |t|
  {
    if t == [] then []
    else Messages(t[..|t| - 1]) + (if t[|t| - 1].Sent? then [t[|t| - 1].msg] else [])
  }

  /** Messages distributes over concatenation of call sequences. */
  lemma {:induction false} MessagesAppend(s: seq<Event>, t: seq<Event>)
    ensures Messages(s + t) == Messages(s) + Messages(t)
    decreases |t|
  {
    if t == [] {
      assert s + t == s;
    } else {
      var u := t[..|t| - 1];
      assert (s + t)[..|s + t| - 1] == s + u;
      MessagesAppend(s, u);
    }
  }

  predicate Distinct<T(==)>(s: seq<T>)
  {
    forall i, j :: 0 <= i < j < |s| ==> s[i] != s[j]
  }
}
