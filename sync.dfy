/** The per-frame synchronisation of the physics module, as a specification:
    for every active actor, in the order the engine reports them, one
    orientation message is sent and then the converted pose is applied to
    the paired scene object. The imperative loop (View.PhysicsModule.UpdateWorld)
    is proved to make exactly these calls. */
module Sync {
  import opened Scene
  import opened Pose
  import opened Registry

  /** The position a converted matrix puts its object at: its location. */
  function PositionOf(mat: seq<real>): Vec3
    requires |mat| == 16
  {
    var (x, y, z) := Location(mat);
    Vec3(x, y, z)
  }

  /** An object moved by a pose is placed at the pose's translation column,
      pose(0,3), pose(1,3), pose(2,3). */
  lemma PositionOfConvert(p: seq<real>)
    requires |p| == 16
    ensures PositionOf(Convert(p)) == Vec3(At(p, 0, 3), At(p, 1, 3), At(p, 2, 3))
  {
    ConvertLocation(p);
  }

  /** What the loop relies on for an active actor: its user data is the
      (object, actor) pair made when it was spawned, the object is in the
      registry, and the engine reports a pose for it. */
  predicate ActiveCube(a: ActorId, userData: map<ActorId, UserData>,
                       poses: map<ActorId, seq<real>>, placed: map<ObjId, int>)
  {
    && a in userData && userData[a].Pair? && userData[a].actor == a
    && userData[a].wo in placed
    && a in poses && |poses[a]| == 16
  }

  predicate AllActiveCubes(actives: seq<ActorId>, userData: map<ActorId, UserData>,
                           poses: map<ActorId, seq<real>>, placed: map<ObjId, int>)
  {
    forall i :: 0 <= i < |actives| ==> ActiveCube(actives[i], userData, poses, placed)
  }

  /** The scene objects paired with the active actors, in order. */
  function Objects(actives: seq<ActorId>, userData: map<ActorId, UserData>): (objs: seq<ObjId>)
    requires forall i :: 0 <= i < |actives| ==> actives[i] in userData
    ensures |objs| == |actives|
  {
    seq(|actives|, i requires 0 <= i < |actives| => userData[actives[i]].wo)
  }

  /** The converted pose of each active actor, in order. */
  function Matrices(actives: seq<ActorId>, poses: map<ActorId, seq<real>>): (mats: seq<seq<real>>)
    requires forall i :: 0 <= i < |actives| ==> actives[i] in poses && |poses[actives[i]]| == 16
    ensures |mats| == |actives|
  {
    seq(|actives|, i requires 0 <= i < |actives| => Convert(poses[actives[i]]))
  }

  /** The position each active actor's pose puts its object at, in order. */
  function Positions(actives: seq<ActorId>, poses: map<ActorId, seq<real>>): (ps: seq<Vec3>)
    requires forall i :: 0 <= i < |actives| ==> actives[i] in poses && |poses[actives[i]]| == 16
    ensures |ps| == |actives|
  {
    seq(|actives|, i requires 0 <= i < |actives| => PositionOf(Convert(poses[actives[i]])))
  }

  /** m after setting objs[i] to vals[i], one after the other. */
  function Assigned<V>(m: map<ObjId, V>, objs: seq<ObjId>, vals: seq<V>): map<ObjId, V>
    requires |objs| == |vals|
  {
    if objs == [] then m
    else
      var n := |objs| - 1;
      Assigned(m, objs[..n], vals[..n])[objs[n] := vals[n]]
  }

  /** One more step of the loop: assigning a longer prefix sets one more object. */
  lemma AssignedSnoc<V>(m: map<ObjId, V>, objs: seq<ObjId>, vals: seq<V>, i: nat)
    requires |objs| == |vals| && i < |objs|
    ensures Assigned(m, objs[..i + 1], vals[..i + 1]) == Assigned(m, objs[..i], vals[..i])[objs[i] := vals[i]]
  {
    assert objs[..i + 1][..i] == objs[..i];
    assert vals[..i + 1][..i] == vals[..i];
  }

  /** Objects outside the list keep their entry (or their absence); the
      listed ones gain one. */
  lemma {:induction false} AssignedElsewhere<V>(m: map<ObjId, V>, objs: seq<ObjId>, vals: seq<V>)
    requires |objs| == |vals|
    ensures forall x :: x in objs ==> x in Assigned(m, objs, vals)
    ensures forall x :: x !in objs ==>
      (x in Assigned(m, objs, vals) <==> x in m) && (x in m ==> Assigned(m, objs, vals)[x] == m[x])
  {
    if objs != [] {
      var n := |objs| - 1;
      AssignedElsewhere(m, objs[..n], vals[..n]);
      forall x | x in objs ensures x in Assigned(m, objs, vals) {
        var j :| 0 <= j < |objs| && objs[j] == x;
        if j < n {
          assert objs[..n][j] == x;
        }
      }
    }
  }

  /** With no object listed twice, each listed object ends up with its own
      value. */
  lemma {:induction false} AssignedAt<V>(m: map<ObjId, V>, objs: seq<ObjId>, vals: seq<V>)
    requires |objs| == |vals| && Distinct(objs)
    ensures forall i :: 0 <= i < |objs| ==>
      objs[i] in Assigned(m, objs, vals) && Assigned(m, objs, vals)[objs[i]] == vals[i]
  {
    if objs != [] {
      var n := |objs| - 1;
      assert Distinct(objs[..n]);
      AssignedAt(m, objs[..n], vals[..n]);
      forall i | 0 <= i < |objs|
        ensures objs[i] in Assigned(m, objs, vals) && Assigned(m, objs, vals)[objs[i]] == vals[i]
      {
        if i < n {
          assert objs[..n][i] == objs[i] && vals[..n][i] == vals[i];
          assert objs[i] != objs[n];
        }
      }
    }
  }

  /** The orientation message built for one active actor. */
  function OrientationMsg(a: ActorId, userData: map<ActorId, UserData>,
                          poses: map<ActorId, seq<real>>, placed: map<ObjId, int>): Msg
    requires ActiveCube(a, userData, poses, placed)
  {
    var mat := Convert(poses[a]);
    ObjectOrientation(PositionOf(mat), mat, placed[userData[a].wo])
  }

  /** An orientation message carries the pose faithfully: its location is
      the pose's translation column, its orientation the converted matrix
      (from which the pose reads back unchanged), and its id the one
      registered for the actor's object. */
  lemma OrientationMsgFaithful(a: ActorId, userData: map<ActorId, UserData>,
                               poses: map<ActorId, seq<real>>, placed: map<ObjId, int>)
    requires ActiveCube(a, userData, poses, placed)
    ensures OrientationMsg(a, userData, poses, placed).ObjectOrientation?
    ensures OrientationMsg(a, userData, poses, placed).location
      == Vec3(At(poses[a], 0, 3), At(poses[a], 1, 3), At(poses[a], 2, 3))
    ensures |OrientationMsg(a, userData, poses, placed).orientation| == 16
    ensures Recover(OrientationMsg(a, userData, poses, placed).orientation) == poses[a]
    ensures OrientationMsg(a, userData, poses, placed).woIndex == placed[userData[a].wo]
  {
    RecoverConvert(poses[a]);
  }

  /** The calls made for one active actor: send the message, then set the
      object's display matrix and position to what the message carries. */
  function ActorEvents(a: ActorId, userData: map<ActorId, UserData>,
                       poses: map<ActorId, seq<real>>, placed: map<ObjId, int>): seq<Event>
    requires ActiveCube(a, userData, poses, placed)
  {
    var mat := Convert(poses[a]);
    [Sent(OrientationMsg(a, userData, poses, placed)), DisplaySet(userData[a].wo, mat),
     Positioned(userData[a].wo, PositionOf(mat))]
  }

  /** The calls made by one frame for the first n active actors, in order. */
  function FrameEvents(actives: seq<ActorId>, n: nat, userData: map<ActorId, UserData>,
                       poses: map<ActorId, seq<real>>, placed: map<ObjId, int>): seq<Event>
    requires n <= |actives| && AllActiveCubes(actives, userData, poses, placed)
  {
    if n == 0 then []
    else FrameEvents(actives, n - 1, userData, poses, placed) + ActorEvents(actives[n - 1], userData, poses, placed)
  }

  /** One more step of the loop: the calls for actor i follow the calls
      made so far. */
  lemma FrameEventsStep(t0: seq<Event>, actives: seq<ActorId>, i: nat, userData: map<ActorId, UserData>,
                        poses: map<ActorId, seq<real>>, placed: map<ObjId, int>)
    requires i < |actives| && AllActiveCubes(actives, userData, poses, placed)
    ensures (t0 + FrameEvents(actives, i, userData, poses, placed)) + ActorEvents(actives[i], userData, poses, placed)
      == t0 + FrameEvents(actives, i + 1, userData, poses, placed)
  {
  }

  /** A frame's calls mirror the active list: three calls per actor, in the
      engine's order, the message for an actor always ahead of the changes to
      its object. */
  lemma {:induction false} FrameEventsAt(actives: seq<ActorId>, n: nat, userData: map<ActorId, UserData>,
                                         poses: map<ActorId, seq<real>>, placed: map<ObjId, int>)
    requires n <= |actives| && AllActiveCubes(actives, userData, poses, placed)
    ensures |FrameEvents(actives, n, userData, poses, placed)| == 3 * n
    ensures forall i :: 0 <= i < n ==>
      FrameEvents(actives, n, userData, poses, placed)[3 * i .. 3 * i + 3]
        == ActorEvents(actives[i], userData, poses, placed)
  {
    if n > 0 {
      FrameEventsAt(actives, n - 1, userData, poses, placed);
      var fi := FrameEvents(actives, n - 1, userData, poses, placed);
      var ae := ActorEvents(actives[n - 1], userData, poses, placed);
      var fe := FrameEvents(actives, n, userData, poses, placed);
      assert fe == fi + ae;
      forall i | 0 <= i < n
        ensures fe[3 * i .. 3 * i + 3] == ActorEvents(actives[i], userData, poses, placed)
      {
        var k := 3 * i;
        if i < n - 1 {
          assert fe[k .. k + 3] == fi[k .. k + 3];
        } else {
          assert fe[k .. k + 3] == ae;
        }
      }
    }
  }

  /** One frame sends exactly one orientation message per active actor, in
      the order the engine reported them. */
  lemma {:induction false} FrameMessages(actives: seq<ActorId>, n: nat, userData: map<ActorId, UserData>,
                                         poses: map<ActorId, seq<real>>, placed: map<ObjId, int>)
    requires n <= |actives| && AllActiveCubes(actives, userData, poses, placed)
    ensures |Messages(FrameEvents(actives, n, userData, poses, placed))| == n
    ensures forall i :: 0 <= i < n ==>
      Messages(FrameEvents(actives, n, userData, poses, placed))[i]
        == OrientationMsg(actives[i], userData, poses, placed)
  {
    if n > 0 {
      FrameMessages(actives, n - 1, userData, poses, placed);
      var fi := FrameEvents(actives, n - 1, userData, poses, placed);
      var ae := ActorEvents(actives[n - 1], userData, poses, placed);
      MessagesAppend(fi, ae);
      ActorMessages(actives[n - 1], userData, poses, placed);
      var ms := Messages(FrameEvents(actives, n, userData, poses, placed));
      var mi := Messages(fi);
      assert ms == mi + [OrientationMsg(actives[n - 1], userData, poses, placed)];
    }
  }

  /** What a frame applies to each active actor's object is what that
      actor's message carried: the position is the message's location and the
      display matrix its orientation. Objects paired with no active actor
      keep their position and matrix (or their absence). */
  lemma FrameApplied(actives: seq<ActorId>, userData: map<ActorId, UserData>,
                     poses: map<ActorId, seq<real>>, placed: map<ObjId, int>,
                     pos: map<ObjId, Vec3>, disp: map<ObjId, seq<real>>)
    requires AllActiveCubes(actives, userData, poses, placed)
    requires Distinct(Objects(actives, userData))
    ensures |Messages(FrameEvents(actives, |actives|, userData, poses, placed))| == |actives|
    ensures forall i :: 0 <= i < |actives| ==>
      && Messages(FrameEvents(actives, |actives|, userData, poses, placed))[i].ObjectOrientation?
      && userData[actives[i]].wo in Assigned(pos, Objects(actives, userData), Positions(actives, poses))
      && Assigned(pos, Objects(actives, userData), Positions(actives, poses))[userData[actives[i]].wo]
         == Messages(FrameEvents(actives, |actives|, userData, poses, placed))[i].location
      && userData[actives[i]].wo in Assigned(disp, Objects(actives, userData), Matrices(actives, poses))
      && Assigned(disp, Objects(actives, userData), Matrices(actives, poses))[userData[actives[i]].wo]
         == Messages(FrameEvents(actives, |actives|, userData, poses, placed))[i].orientation
    ensures forall x :: x !in Objects(actives, userData) ==>
      && (x in Assigned(pos, Objects(actives, userData), Positions(actives, poses)) <==> x in pos)
      && (x in pos ==> Assigned(pos, Objects(actives, userData), Positions(actives, poses))[x] == pos[x])
      && (x in Assigned(disp, Objects(actives, userData), Matrices(actives, poses)) <==> x in disp)
      && (x in disp ==> Assigned(disp, Objects(actives, userData), Matrices(actives, poses))[x] == disp[x])
  {
    var objs := Objects(actives, userData);
    FrameMessages(actives, |actives|, userData, poses, placed);
    AssignedAt(pos, objs, Positions(actives, poses));
    AssignedAt(disp, objs, Matrices(actives, poses));
    AssignedElsewhere(pos, objs, Positions(actives, poses));
    AssignedElsewhere(disp, objs, Matrices(actives, poses));
    forall i | 0 <= i < |actives|
      ensures objs[i] == userData[actives[i]].wo
    {
    }
  }

  /** The calls for one actor hold exactly one message: its orientation. */
  lemma ActorMessages(a: ActorId, userData: map<ActorId, UserData>,
                      poses: map<ActorId, seq<real>>, placed: map<ObjId, int>)
    requires ActiveCube(a, userData, poses, placed)
    ensures Messages(ActorEvents(a, userData, poses, placed)) == [OrientationMsg(a, userData, poses, placed)]
  {
    var ae := ActorEvents(a, userData, poses, placed);
    assert ae[..1][..0] == [];
    assert Messages(ae[..1]) == [ae[0].msg];
    assert ae[..2][..1] == ae[..1];
    assert Messages(ae[..2]) == [ae[0].msg];
    assert ae[..2] == ae[..|ae| - 1];
  }

  /** The id a frame sends for a registered cube is the one it got at its
      spawn: its position in the spawn order. */
  lemma SyncIdIsSpawnIndex(a: ActorId, userData: map<ActorId, UserData>,
                           poses: map<ActorId, seq<real>>, spawned: seq<ObjId>, j: nat)
    requires Distinct(spawned)
    requires ActiveCube(a, userData, poses, Registered(spawned))
    requires j < |spawned| && userData[a].wo == spawned[j]
    ensures OrientationMsg(a, userData, poses, Registered(spawned)).woIndex == j
  {
    RegisteredIds(spawned);
  }
}
