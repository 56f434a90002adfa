/** The placement grid of blendgen/blender_objects.py: an n×n×n lattice of slots,
    spaced two units apart, and the prop instances put on its first slots. */
module Grid {
  import opened Results

  datatype Coord = Coord(x: int, y: int, z: int)

  /** A duplicated prop instance, reduced to what the grid decides about it: the name
      of the template object it copies, its pass_index (the segmentation index the
      mask material reads) and its location. */
  datatype Prop = Prop(name: string, passIndex: int, location: Coord)

  /** The distance between neighbouring slots. */
  const SideLength: int := 2

  function Cube(n: int): int { n * n * n }

  /** n is the side the constructor picks for nSpots slots: the least n >= 1 whose
      cube holds them. */
  predicate IsCubeSide(nSpots: int, n: int) {
    n >= 1 && Cube(n) >= nSpots && forall m :: 1 <= m < n ==> Cube(m) < nSpots
  }

  /** Slot p of an n×n×n lattice, in the order the triple loop visits it:
      p = (i*n + j)*n + k holds (2i, 2j, 2k). */
  function Slot(n: nat, p: nat): Coord
    requires n >= 1
  {
    Coord(SideLength * (p / n / n), SideLength * (p / n % n), SideLength * (p % n))
  }

  /** The coordinate list of a grid with n slots per side. */
  function Lattice(n: nat): (r: seq<Coord>)
    requires n >= 1
    ensures |r| == Cube(n)
  {
    seq(Cube(n), p requires 0 <= p < Cube(n) => Slot(n, p))
  }

  /** The centre of a grid with n slots per side, on every axis. The source computes
      it as a float; with a side length of 2 the division is exact. */
  function CenterCoordinate(n: int): int {
    (n - 1) * SideLength / 2
  }

  // ---------------------------------------------------------------------------
  // The two loops of Grid.__init__
  // ---------------------------------------------------------------------------

  /** The while loop that grows n_per_side from 1 until its cube reaches n_spots. */
  method CubeSide(nSpots: int) returns (n: nat)
    ensures IsCubeSide(nSpots, n)
  {
    n := 1;
    while nSpots > Cube(n)
      invariant n >= 1
      invariant forall m :: 1 <= m < n ==> Cube(m) < nSpots
      decreases nSpots - n
    {
      CubeAtLeast(n);
      n := n + 1;
    }
  }

  /** The triple loop over i, j, k that appends (2i, 2j, 2k) to coordinate_list. */
  method LatticeCoordinates(n: nat) returns (coords: seq<Coord>)
    requires n >= 1
    ensures coords == Lattice(n)
  {
    coords := [];
    for i := 0 to n
      invariant |coords| == i * n * n
      invariant forall p :: 0 <= p < |coords| ==> coords[p] == Slot(n, p)
    {
      for j := 0 to n
        invariant |coords| == (i * n + j) * n
        invariant forall p :: 0 <= p < |coords| ==> coords[p] == Slot(n, p)
      {
        for k := 0 to n
          invariant |coords| == (i * n + j) * n + k
          invariant forall p :: 0 <= p < |coords| ==> coords[p] == Slot(n, p)
        {
          SlotOf(n, i, j, k);
          coords := coords + [Coord(SideLength * i, SideLength * j, SideLength * k)];
        }
        assert (i * n + j) * n + n == (i * n + (j + 1)) * n;
      }
      assert (i * n + n) * n == (i + 1) * n * n;
    }
  }

  // ---------------------------------------------------------------------------
  // The grid object
  // ---------------------------------------------------------------------------

  class Grid {
    var nSpots: int
    var propList: seq<Prop>
    var coordinateList: seq<Coord>
    var center: Coord
    /** n_per_side: a local of the constructor, kept here to state the invariant. */
    ghost var nPerSide: nat

    ghost predicate Valid()
      reads this
    {
      IsCubeSide(nSpots, nPerSide) &&
      coordinateList == Lattice(nPerSide) &&
      center == Coord(CenterCoordinate(nPerSide), CenterCoordinate(nPerSide), CenterCoordinate(nPerSide))
    }

    constructor (nSpots: int)
      ensures Valid()
      ensures this.nSpots == nSpots && propList == []
      ensures IsCubeSide(nSpots, nPerSide) && coordinateList == Lattice(nPerSide)
      ensures center == Coord(nPerSide - 1, nPerSide - 1, nPerSide - 1)
    {
      var n := CubeSide(nSpots);
      var c := CenterCoordinate(n);
      var coords := LatticeCoordinates(n);
      this.nSpots := nSpots;
      propList := [];
      coordinateList := coords;
      center := Coord(c, c, c);
      nPerSide := n;
    }

    /** Grid.populate: the idx-th new prop is a copy of an object named in
        objNameList, with pass_index idx, moved to slot idx. Python raises
        IndexError in the middle of the loop when slot idx does not exist or when
        objNameList is empty (random.choice), leaving the props appended so far. */
    method Populate(objNameList: seq<string>, nInstances: int) returns (outcome: Outcome)
      requires Valid()
      modifies this`propList
      ensures Valid()
      ensures coordinateList == old(coordinateList) && center == old(center)
      ensures |old(propList)| <= |propList| && propList[..|old(propList)|] == old(propList)
      ensures forall idx :: |old(propList)| <= idx < |propList| ==>
                var prop := propList[idx];
                var slot := idx - |old(propList)|;
                slot < |coordinateList| && prop.location == coordinateList[slot] &&
                prop.passIndex == slot && prop.name in objNameList
      ensures outcome.Pass? <==> nInstances <= 0 || (nInstances <= |coordinateList| && objNameList != [])
      ensures outcome.Pass? ==> |propList| - |old(propList)| == if nInstances <= 0 then 0 else nInstances
      ensures outcome.Fail? ==>
                outcome.error == IndexError &&
                |propList| - |old(propList)| == if objNameList == [] then 0 else |coordinateList|
    {
      var idx := 0;
      while idx < nInstances
        invariant 0 <= idx <= |coordinateList|
        invariant idx <= nInstances || idx == 0
        invariant idx > 0 ==> objNameList != []
        invariant Valid() && coordinateList == old(coordinateList) && center == old(center)
        invariant |propList| == |old(propList)| + idx && propList[..|old(propList)|] == old(propList)
        invariant forall p :: |old(propList)| <= p < |propList| ==>
                    var prop := propList[p];
                    var slot := p - |old(propList)|;
                    slot < |coordinateList| && prop.location == coordinateList[slot] &&
                    prop.passIndex == slot && prop.name in objNameList
        decreases nInstances - idx
      {
        if idx >= |coordinateList| {
          return Fail(IndexError);
        }
        var coordinate := coordinateList[idx];
        if objNameList == [] {
          return Fail(IndexError);
        }
        assert objNameList[0] in objNameList;
        var objName :| objName in objNameList;
        propList := propList + [Prop(objName, idx, coordinate)];
        idx := idx + 1;
      }
      return Pass;
    }
  }

  // ---------------------------------------------------------------------------
  // Properties of the lattice
  // ---------------------------------------------------------------------------

  /** The grid always has room for the requested number of slots. */
  lemma EnoughSlots(nSpots: int, n: int)
    requires IsCubeSide(nSpots, n)
    ensures |Lattice(n)| >= nSpots && |Lattice(n)| >= 1
  {
    CubeAtLeast(n);
  }

  /** The triple loop's order: (i, j, k) sits at index i*n² + j*n + k. */
  lemma LatticeAt(n: nat, i: nat, j: nat, k: nat)
    requires n >= 1 && i < n && j < n && k < n
    ensures i * n * n + j * n + k < |Lattice(n)|
    ensures Lattice(n)[i * n * n + j * n + k] == Coord(2 * i, 2 * j, 2 * k)
  {
    SlotOf(n, i, j, k);
    assert (i * n + j) * n + k == i * n * n + j * n + k;
  }

  /** No two slots coincide. */
  lemma LatticeDistinct(n: nat)
    requires n >= 1
    ensures forall p, q :: 0 <= p < q < |Lattice(n)| ==> Lattice(n)[p] != Lattice(n)[q]
  {
    forall p, q | 0 <= p < q < |Lattice(n)|
      ensures Lattice(n)[p] != Lattice(n)[q]
    {
      SlotInjective(n, p, q);
    }
  }

  /** Every component is even and lies between 0 and 2(n - 1). */
  lemma LatticeBounds(n: nat)
    requires n >= 1
    ensures forall p :: 0 <= p < |Lattice(n)| ==> InBox(n, Lattice(n)[p])
  {
    forall p | 0 <= p < |Lattice(n)|
      ensures InBox(n, Lattice(n)[p])
    {
      SlotInBox(n, p);
    }
  }

  /** Every component of c is even and lies between 0 and 2(n - 1). */
  predicate InBox(n: nat, c: Coord) {
    c.x % 2 == 0 && c.y % 2 == 0 && c.z % 2 == 0 &&
    0 <= c.x <= 2 * (n - 1) && 0 <= c.y <= 2 * (n - 1) && 0 <= c.z <= 2 * (n - 1)
  }

  lemma SlotInBox(n: nat, p: nat)
    requires n >= 1 && p < Cube(n)
    ensures InBox(n, Slot(n, p))
  {
    SlotDigits(n, p);
    var i, j, k := p / n / n, p / n % n, p % n;
    assert Slot(n, p) == Coord(2 * i, 2 * j, 2 * k);
  }

  /** The three base-n digits of a slot index below n^3. */
  lemma SlotDigits(n: nat, p: nat)
    requires n >= 1 && p < Cube(n)
    ensures 0 <= p / n / n < n && 0 <= p / n % n < n && 0 <= p % n < n
  {
    DivBelow(p, n * n, n);
    DivBelow(p / n, n, n);
  }

  /** The centre is the midpoint of the first and the last slot on every axis. */
  lemma CenterIsMidpoint(n: nat)
    requires n >= 1
    ensures var first, last := Lattice(n)[0], Lattice(n)[|Lattice(n)| - 1];
            first == Coord(0, 0, 0) &&
            2 * CenterCoordinate(n) == first.x + last.x &&
            2 * CenterCoordinate(n) == first.y + last.y &&
            2 * CenterCoordinate(n) == first.z + last.z
  {
    LatticeAt(n, 0, 0, 0);
    LatticeAt(n, n - 1, n - 1, n - 1);
    assert (n - 1) * n * n + (n - 1) * n + (n - 1) == Cube(n) - 1;
  }

  /** One spot or none: the grid is the single slot (0, 0, 0). */
  lemma FewSpotsSingleSlot(nSpots: int, n: int)
    requires IsCubeSide(nSpots, n) && nSpots <= 1
    ensures Lattice(n) == [Coord(0, 0, 0)]
  {
    assert Cube(1) == 1;
    assert n == 1;
  }

  // ---------------------------------------------------------------------------
  // Arithmetic helpers
  // ---------------------------------------------------------------------------

  lemma CubeAtLeast(n: int)
    requires n >= 1
    ensures Cube(n) >= n
  {
    assert n * n >= n;
    assert n * n * n >= n * n;
  }

  /** Quotient and remainder of q*n + r for 0 <= r < n. */
  lemma DivModOf(q: nat, r: nat, n: nat)
    requires r < n
    ensures (q * n + r) / n == q && (q * n + r) % n == r
  {
    var a := q * n + r;
    var d: int, m: int := a / n, a % n;
    assert a == d * n + m && 0 <= m < n;
    assert (q - d) * n == m - r;
    var t: int := q - d;
    assert t * n + n > 0 && t * n < n;
    if t >= 1 {
      MulAtLeast(t, n);
    } else if t <= -1 {
      MulAtLeast(-t, n);
    }
  }

  lemma MulAtLeast(t: int, n: int)
    requires t >= 1 && n >= 0
    ensures t * n >= n
  {
    assert t * n == (t - 1) * n + n;
  }

  lemma DivBelow(a: nat, b: nat, n: nat)
    requires n >= 1 && a < b * n
    ensures a / n < b
  {
  }

  lemma SlotOf(n: nat, i: nat, j: nat, k: nat)
    requires n >= 1 && i < n && j < n && k < n
    ensures 0 <= (i * n + j) * n + k < Cube(n)
    ensures Slot(n, (i * n + j) * n + k) == Coord(SideLength * i, SideLength * j, SideLength * k)
  {
    SlotIndexBound(n, i, j, k);
    var p := (i * n + j) * n + k;
    DivModOf(i * n + j, k, n);
    assert p / n == i * n + j && p % n == k;
    DivModOf(i, j, n);
    assert p / n / n == i && p / n % n == j;
  }

  lemma SlotIndexBound(n: nat, i: nat, j: nat, k: nat)
    requires n >= 1 && i < n && j < n && k < n
    ensures 0 <= (i * n + j) * n + k < Cube(n)
  {
    MulLe(0, i, n);
    MulLe(0, i * n + j, n);
    MulLe(i, n - 1, n);
    assert (n - 1) * n == n * n - n;
    assert i * n + j <= n * n - 1;
    MulLe(i * n + j, n * n - 1, n);
    assert (n * n - 1) * n == n * n * n - n;
  }

  lemma MulLe(a: int, b: int, n: int)
    requires a <= b && n >= 0
    ensures a * n <= b * n
  {
    assert b * n - a * n == (b - a) * n;
  }

  lemma SlotInjective(n: nat, p: nat, q: nat)
    requires n >= 1 && p != q
    ensures Slot(n, p) != Slot(n, q)
  {
    assert p == (p / n) * n + p % n;
    assert q == (q / n) * n + q % n;
    assert p / n == (p / n / n) * n + p / n % n;
    assert q / n == (q / n / n) * n + q / n % n;
  }
}
