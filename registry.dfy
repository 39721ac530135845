/** The registry of placed cubes: a map from scene object to the integer id
    sent over the network, filled by the spawn key and read by the per-frame
    loop. The map behaves as a C++ ordered map: insert never overwrites, and
    the subscript operator default-inserts 0 for a missing key. */
module Registry {
  import opened Scene

  /** std::map::insert: adds k with value v unless k is already present. */
  function Insert(m: map<ObjId, int>, k: ObjId, v: int): (m': map<ObjId, int>)
    ensures m'.Keys == m.Keys + {k}
    ensures forall x :: x in m ==> m'[x] == m[x]
    ensures k !in m ==> m'[k] == v
  {
    if k in m then m else m[k := v]
  }

  /** std::map::operator[]: the value under k, value-initialised to 0 (and
      inserted) when k is missing. */
  function Subscript(m: map<ObjId, int>, k: ObjId): (res: (map<ObjId, int>, int))
    ensures res.0.Keys == m.Keys + {k}
    ensures forall x :: x in m ==> res.0[x] == m[x]
    ensures res.1 == res.0[k]
    ensures k !in m ==> res.1 == 0
  {
    if k in m then (m, m[k]) else (m[k := 0], 0)
  }

  /** The registry after the objects in `spawned` were registered in order,
      each under the counter value at its spawn. */
  function Registered(spawned: seq<ObjId>): map<ObjId, int>
  {
    if spawned == [] then map[]
    else Registered(spawned[..|spawned| - 1])[spawned[|spawned| - 1] := |spawned| - 1]
  }

  /** For an object not spawned before, the map's insert of the object
      under the current count gives exactly the registry after that spawn. */
  lemma RegisterFresh(spawned: seq<ObjId>, wo: ObjId)
    requires wo !in spawned
    ensures Insert(Registered(spawned), wo, |spawned|) == Registered(spawned + [wo])
  {
    var s := spawned + [wo];
    assert s[..|s| - 1] == spawned;
    RegisteredKeys(spawned);
  }

  /** The registry holds exactly the spawned objects. */
  lemma {:induction false} RegisteredKeys(spawned: seq<ObjId>)
    ensures Registered(spawned).Keys == set x | x in spawned
  {
    if spawned != [] {
      var init := spawned[..|spawned| - 1];
      RegisteredKeys(init);
      assert spawned == init + [spawned[|spawned| - 1]];
    }
  }

  /** Of distinct spawns, the i-th is registered under id i. */
  lemma {:induction false} RegisteredIds(spawned: seq<ObjId>)
    requires Distinct(spawned)
    ensures forall i :: 0 <= i < |spawned| ==>
      spawned[i] in Registered(spawned) && Registered(spawned)[spawned[i]] == i
  {
    if spawned != [] {
      var n := |spawned| - 1;
      var init := spawned[..n];
      assert Distinct(init) by {
        forall i, j | 0 <= i < j < n ensures init[i] != init[j] {
          assert init[i] == spawned[i] && init[j] == spawned[j];
        }
      }
      RegisteredIds(init);
      var r := Registered(spawned);
      assert r == Registered(init)[spawned[n] := n];
      forall i | 0 <= i < |spawned|
        ensures spawned[i] in r && r[spawned[i]] == i
      {
        if i < n {
          assert init[i] == spawned[i] && spawned[i] != spawned[n];
        }
      }
    }
  }

  /** The ids of n distinct spawns are exactly 0 .. n-1, each used once: no
      gaps and no repeats. */
  lemma RegisteredIdsAreDense(spawned: seq<ObjId>)
    requires Distinct(spawned)
    ensures forall v :: v in Registered(spawned).Values <==> 0 <= v < |spawned|
    ensures forall x, y ::
      (x in Registered(spawned) && y in Registered(spawned) &&
       Registered(spawned)[x] == Registered(spawned)[y]) ==> x == y
  {
    var r := Registered(spawned);
    RegisteredIds(spawned);
    RegisteredKeys(spawned);
    forall x | x in r
      ensures exists i :: 0 <= i < |spawned| && spawned[i] == x && r[x] == i
    {
      var i :| 0 <= i < |spawned| && spawned[i] == x;
    }
    forall v | v in r.Values
      ensures 0 <= v < |spawned|
    {
      var x :| x in r && r[x] == v;
    }
    forall i | 0 <= i < |spawned|
      ensures i in r.Values
    {
      assert r[spawned[i]] == i;
    }
  }
}
