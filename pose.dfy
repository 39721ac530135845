/** The per-frame pose remap of the physics module: the sixteen entries of a
    physics-engine pose, read through its (row, col) accessor, are laid out in
    the flat array a scene matrix is built from. No arithmetic is involved, so
    the entries are kept opaque (type parameter T). */
module Pose {

  /** A pose holds its sixteen entries in (row, col) order; this is the
      engine accessor pose(r, c). */
  function At<T>(p: seq<T>, r: nat, c: nat): T
    requires |p| == 16 && r < 4 && c < 4
  {
    p[4 * r + c]
  }

  /** The slot of the converted array that receives pose(r, c): the upper
      3x3 block row by row, pose(3, c) in slots 3, 7, 11, pose(r, 3) in
      slots 12..14 and pose(3, 3) in slot 15. */
  function Slot(r: nat, c: nat): (k: nat)
    requires r < 4 && c < 4
    ensures k < 16
  {
    if r < 3 && c < 3 then 4 * r + c
    else if r == 3 && c < 3 then 4 * c + 3
    else if r < 3 then 12 + r
    else 15
  }

  /** The entry of the pose that lands in slot k: the inverse of Slot. */
  function Cell(k: nat): (rc: (nat, nat))
    requires k < 16
    ensures rc.0 < 4 && rc.1 < 4
    ensures Slot(rc.0, rc.1) == k
  {
    var q, m := k / 4, k % 4;
    if q < 3 && m < 3 then (q, m)
    else if q < 3 then (3, q)
    else if m < 3 then (m, 3)
    else (3, 3)
  }

  /** The remap itself, written as the literal array the module builds. */
  function Convert<T>(p: seq<T>): (a: seq<T>)
    requires |p| == 16
    ensures |a| == 16
  {
    [At(p, 0, 0), At(p, 0, 1), At(p, 0, 2), At(p, 3, 0),
     At(p, 1, 0), At(p, 1, 1), At(p, 1, 2), At(p, 3, 1),
     At(p, 2, 0), At(p, 2, 1), At(p, 2, 2), At(p, 3, 2),
     At(p, 0, 3), At(p, 1, 3), At(p, 2, 3), At(p, 3, 3)]
  }

  /** Reads the original pose back out of a converted array. */
  function Recover<T>(a: seq<T>): (p: seq<T>)
    requires |a| == 16
    ensures |p| == 16
  {
    seq(16, k requires 0 <= k < 16 => a[Slot(k / 4, k % 4)])
  }

  /** pose(r, c) lands in slot Slot(r, c) of the converted array. */
  lemma ConvertPlacement<T>(p: seq<T>, r: nat, c: nat)
    requires |p| == 16 && r < 4 && c < 4
    ensures Convert(p)[Slot(r, c)] == At(p, r, c)
  {
    assert r == 0 || r == 1 || r == 2 || r == 3;
    assert c == 0 || c == 1 || c == 2 || c == 3;
  }

  /** Recover reads pose(r, c) back from slot Slot(r, c). */
  lemma RecoverPlacement<T>(a: seq<T>, r: nat, c: nat)
    requires |a| == 16 && r < 4 && c < 4
    ensures At(Recover(a), r, c) == a[Slot(r, c)]
  {
    var k := 4 * r + c;
    assert k / 4 == r && k % 4 == c;
  }

  /** The translation read from a converted array (slots 12..14). */
  function Location<T>(a: seq<T>): (T, T, T)
    requires |a| == 16
  {
    (a[12], a[13], a[14])
  }

  /** Slot is one-to-one: no two pose entries share a slot. */
  lemma SlotInjective(r: nat, c: nat, r': nat, c': nat)
    requires r < 4 && c < 4 && r' < 4 && c' < 4
    requires Slot(r, c) == Slot(r', c')
    ensures r == r' && c == c'
  {
  }

  /** Slot and Cell are mutually inverse, so Slot is a bijection between
      the sixteen (row, col) cells and the sixteen slots. */
  lemma SlotBijection(r: nat, c: nat, k: nat)
    requires r < 4 && c < 4 && k < 16
    ensures Cell(Slot(r, c)) == (r, c)
    ensures Slot(Cell(k).0, Cell(k).1) == k
  {
    var rc := Cell(Slot(r, c));
    SlotInjective(rc.0, rc.1, r, c);
  }

  /** The pose can be recovered from its conversion. */
  lemma RecoverConvert<T>(p: seq<T>)
    requires |p| == 16
    ensures Recover(Convert(p)) == p
  {
    var q := Recover(Convert(p));
    forall k | 0 <= k < 16
      ensures q[k] == p[k]
    {
      var r, c := k / 4, k % 4;
      assert 4 * r + c == k;
      RecoverPlacement(Convert(p), r, c);
      ConvertPlacement(p, r, c);
    }
  }

  /** Every converted array comes from exactly one pose. */
  lemma ConvertRecover<T>(a: seq<T>)
    requires |a| == 16
    ensures Convert(Recover(a)) == a
  {
    var b := Convert(Recover(a));
    forall k | 0 <= k < 16
      ensures b[k] == a[k]
    {
      var rc := Cell(k);
      ConvertPlacement(Recover(a), rc.0, rc.1);
      RecoverPlacement(a, rc.0, rc.1);
    }
  }

  /** Every entry of the pose appears exactly once in the converted array. */
  lemma ConvertIsPermutation<T>(p: seq<T>)
    requires |p| == 16
    ensures multiset(Convert(p)) == multiset(p)
  {
    SwapKeepsMultiset(p, 3, 12);
    SwapKeepsMultiset(Swap(p, 3, 12), 7, 13);
    SwapKeepsMultiset(Swap(Swap(p, 3, 12), 7, 13), 11, 14);
    ConvertExchanges(p);
  }

  /** Stored row by row, the remap only exchanges the translation column
      (entries 3, 7, 11) with the bottom row (entries 12, 13, 14). */
  lemma ConvertExchanges<T>(p: seq<T>)
    requires |p| == 16
    ensures Convert(p) == Swap(Swap(Swap(p, 3, 12), 7, 13), 11, 14)
  {
    var s := Swap(Swap(Swap(p, 3, 12), 7, 13), 11, 14);
    var a := Convert(p);
    forall k | 0 <= k < 16
      ensures a[k] == s[k]
    {
      assert k == 0 || k == 1 || k == 2 || k == 3 || k == 4 || k == 5 || k == 6 || k == 7 ||
             k == 8 || k == 9 || k == 10 || k == 11 || k == 12 || k == 13 || k == 14 || k == 15;
    }
  }

  /** s with the entries at i and j exchanged. */
  function Swap<T>(s: seq<T>, i: nat, j: nat): seq<T>
    requires i < |s| && j < |s|
  {
    s[i := s[j]][j := s[i]]
  }

  /** Exchanging two entries of a sequence keeps its multiset. */
  lemma SwapKeepsMultiset<T>(s: seq<T>, i: nat, j: nat)
    requires i < |s| && j < |s|
    ensures |Swap(s, i, j)| == |s|
    ensures multiset(Swap(s, i, j)) == multiset(s)
  {
    if i != j {
      var t := s[i := s[j]];
      assert multiset(t) == multiset(s) - multiset{s[i]} + multiset{s[j]};
      assert t[j] == s[j];
    }
  }

  /** The location of a converted pose is its translation column
      (pose(0,3), pose(1,3), pose(2,3)). */
  lemma ConvertLocation<T>(p: seq<T>)
    requires |p| == 16
    ensures Location(Convert(p)) == (At(p, 0, 3), At(p, 1, 3), At(p, 2, 3))
  {
  }
}
