/** GLTextures.js: the texture-unit allocator shared by all shaders. The
    source keeps it in two static fields; here it is one object the shaders
    and renderers share. The console diagnostic on overflow is returned as a
    flag instead of being printed. */
module TextureUnits {

  /** The allocator's two fields as a value. */
  datatype Units = Units(unitUsed: int, maxUnit: int)

  /** The static initialisers: nothing used yet, and no limit known (-1). */
  const Initial: Units := Units(0, -1)

  /** `allocUnit()`: the unit handed out, whether the overflow diagnostic
      fires, and the allocator afterwards. */
  datatype Allocation = Allocation(unit: int, reported: bool, after: Units)

  function Alloc(u: Units): (a: Allocation)
    ensures a.unit == u.unitUsed
    ensures a.after == Units(u.unitUsed + 1, u.maxUnit)
    ensures a.reported <==> a.unit > u.maxUnit
  {
    var unit := u.unitUsed;
    Allocation(unit, unit > u.maxUnit, u.(unitUsed := unit + 1))
  }

  /** `reset()` forgets the units in use and keeps the limit. */
  function ResetUnits(u: Units): (r: Units)
    ensures r.unitUsed == 0 && r.maxUnit == u.maxUnit
  {
    u.(unitUsed := 0)
  }

  /** The units handed out by `n` consecutive allocations, and the allocator
      afterwards. */
  function AllocMany(u: Units, n: nat): (Units, seq<int>)
    decreases n
  {
    if n == 0 then (u, [])
    else
      var a := Alloc(u);
      var (v, rest) := AllocMany(a.after, n - 1);
      (v, [a.unit] + rest)
  }

  /** Consecutive allocations count up from the current counter by one, and
      leave the limit alone. */
  lemma {:induction false} AllocManyCountsUp(u: Units, n: nat)
    ensures AllocMany(u, n).0 == Units(u.unitUsed + n, u.maxUnit)
    ensures |AllocMany(u, n).1| == n
    ensures forall i :: 0 <= i < n ==> AllocMany(u, n).1[i] == u.unitUsed + i
    decreases n
  {
    if n > 0 {
      var a := Alloc(u);
      AllocManyCountsUp(a.after, n - 1);
    }
  }

  /** After `reset`, n consecutive allocations return 0, 1, …, n - 1. */
  lemma AllocAfterReset(u: Units, n: nat)
    ensures AllocMany(ResetUnits(u), n).1 == seq(n, i => i)
  {
    AllocManyCountsUp(ResetUnits(u), n);
  }

  /** Before `init`, the limit is -1, so every allocation from a fresh or
      reset allocator is reported; it is handed out all the same. */
  lemma AllocBeforeInitReports(u: Units)
    requires u.maxUnit == -1 && u.unitUsed >= 0
    ensures Alloc(u).reported && Alloc(u).unit == u.unitUsed
  {
  }

  /** The allocator object. */
  class Allocator {
    var unitUsed: int
    var maxUnit: int

    function State(): Units
      reads this
    {
      Units(unitUsed, maxUnit)
    }

    constructor ()
      ensures State() == Initial
    {
      unitUsed := 0;
      maxUnit := -1;
    }

    /** `init(gl)`: `maxTextureImageUnits` is the device's answer to
        `getParameter(MAX_TEXTURE_IMAGE_UNITS)`. */
    method Init(maxTextureImageUnits: int)
      modifies this
      ensures State() == Units(old(unitUsed), maxTextureImageUnits)
    {
      maxUnit := maxTextureImageUnits;
    }

    /** `allocUnit()`: returns the counter and increments it by one. The
        diagnostic fires exactly when the unit exceeds `maxUnit`, so unit ==
        maxUnit is not reported; allocation never stops at the limit. */
    method AllocUnit() returns (unit: int, reported: bool)
      modifies this
      ensures Allocation(unit, reported, State()) == Alloc(old(State()))
    {
      unit := unitUsed;
      unitUsed := unitUsed + 1;
      reported := unit > maxUnit;
    }

    /** `reset()`: only the counter changes. */
    method Reset()
      modifies this
      ensures State() == ResetUnits(old(State()))
    {
      unitUsed := 0;
    }
  }
}
