/** The function version of the biomass equations: the same bark and branch
    shapes as the package (only BB_12 is scaled differently), not clipped, but
    reached through `check_BB` / `check_BLB`, which return 0 for a tree whose
    diameter or height is not positive; and `cairns`, the belowground biomass. */
module ScriptBiomass {
  import opened Wrappers
  import opened Numeric
  import opened Allometry
  import Bark
  import Branch

  /** The shape of bark function BB_n: BB_12 multiplies by 1000 where the
      package's BB_12 does not; every other function is the package's shape. */
  function BarkEquation(n: Bark.BarkNumber): Form {
    if n == 12 then LogLinear(-13.3146, 2.8594, 1000.0) else Bark.Equation(n)
  }

  /** The shape of a bark assignment: `None` is BB_None, which returns 0. */
  function BarkAssigned(id: Option<Bark.BarkNumber>): Form {
    match id
    case None => Zero
    case Some(n) => BarkEquation(n)
  }

  /** `check_BB`: 0 when the diameter or height is not positive, otherwise the
      assigned function's unclipped value. */
  function CheckBark(m: Math, id: Option<Bark.BarkNumber>, dbh: real, ht: real, density: real): (r: real)
    ensures dbh <= 0.0 || ht <= 0.0 ==> r == 0.0
    ensures dbh > 0.0 && ht > 0.0 ==> r == Raw(m, BarkAssigned(id), dbh, ht, density)
  {
    if dbh <= 0.0 || ht <= 0.0 then 0.0 else Raw(m, BarkAssigned(id), dbh, ht, density)
  }

  /** `check_BLB`: the same guard around a branch function. */
  function CheckBranch(m: Math, id: Option<Branch.BranchNumber>, dbh: real, ht: real): (r: real)
    ensures dbh <= 0.0 || ht <= 0.0 ==> r == 0.0
    ensures dbh > 0.0 && ht > 0.0 ==> r == Raw(m, Branch.Assigned(id), dbh, ht, 0.0)
  {
    if dbh <= 0.0 || ht <= 0.0 then 0.0 else Raw(m, Branch.Assigned(id), dbh, ht, 0.0)
  }

  /** `cairns`: belowground biomass exp(-1.085 + 0.9256 ln agb) from the
      aboveground biomass agb, and 0 for a non-positive agb. */
  function Cairns(m: Math, agb: real): (r: real)
    ensures agb <= 0.0 ==> r == 0.0
  {
    if agb <= 0.0 then 0.0 else m.exp(-1.085 + 0.9256 * m.ln(agb))
  }

  /** Belowground biomass is positive exactly when aboveground biomass is. */
  lemma CairnsPositive(m: Math, agb: real)
    requires Lawful(m)
    ensures Cairns(m, agb) > 0.0 <==> agb > 0.0
  {
  }

  /** BB_None, BB_19 and BLB_None give 0 for every tree. */
  lemma Unassigned(m: Math, dbh: real, ht: real, density: real)
    ensures CheckBark(m, None, dbh, ht, density) == 0.0
    ensures CheckBark(m, Some(19), dbh, ht, density) == 0.0
    ensures CheckBranch(m, None, dbh, ht) == 0.0
  {
  }

  /** On a tree the guard lets through, the package's clipped bark equation is
      the function version's value clipped at 0, for every equation but BB_12. */
  lemma {:induction false} PackageClipsBark(m: Math, n: Bark.BarkNumber, dbh: real, ht: real, density: real)
    requires dbh > 0.0 && ht > 0.0 && n != 12
    ensures Bark.Calc(m, n, dbh, ht, density) == Max(0.0, CheckBark(m, Some(n), dbh, ht, density))
  {
    assert BarkEquation(n) == Bark.Equation(n);
  }

  /** The function version's BB_12 is 1000 times the package's, and positive. */
  lemma {:induction false} ScaledBark(m: Math, dbh: real, ht: real, density: real)
    requires Lawful(m) && dbh > 0.0 && ht > 0.0
    ensures CheckBark(m, Some(12), dbh, ht, density) == 1000.0 * Bark.Calc(m, 12, dbh, ht, density)
    ensures CheckBark(m, Some(12), dbh, ht, density) > 0.0
  {
    var e := Allometric(m, -13.3146, 2.8594, dbh);
    assert e > 0.0;
    assert Raw(m, Bark.Equation(12), dbh, ht, density) == e;
    assert CheckBark(m, Some(12), dbh, ht, density) == e * 1000.0;
  }

  /** On a tree the guard lets through, the package's clipped branch equation
      is the function version's value clipped at 0, for every assignment. */
  lemma {:induction false} PackageClipsBranch(m: Math, id: Option<Branch.BranchNumber>, dbh: real, ht: real)
    requires dbh > 0.0 && ht > 0.0
    ensures Branch.Calc(m, id, dbh, ht) == Max(0.0, CheckBranch(m, id, dbh, ht))
  {
  }

  /** Without the clip, the negative-intercept equations go negative on small
      trees: exactly when the size term is below the intercept's magnitude,
      e.g. for a tree of diameter 1 and height 1. */
  lemma {:induction false} NegativeOnSmallTrees(m: Math, dbh: real, ht: real, density: real)
    requires dbh > 0.0 && ht > 0.0
    ensures CheckBark(m, Some(26), dbh, ht, density) < 0.0 <==> 0.00134 * Sq(dbh) * ht < 0.025
    ensures CheckBark(m, Some(27), dbh, ht, density) < 0.0 <==> 29.1 * Sq(dbh / 100.0) * ht < 1.2
    ensures CheckBark(m, Some(39), dbh, ht, density) < 0.0 <==> 24.0 * Sq(dbh / 100.0) * ht < 1.2
    ensures CheckBranch(m, Some(25), dbh, ht) < 0.0 <==> 45.1 * Sq(dbh / 100.0) * ht < 0.6
    ensures dbh == 1.0 && ht == 1.0 ==>
              && CheckBark(m, Some(26), dbh, ht, density) < 0.0
              && CheckBark(m, Some(27), dbh, ht, density) < 0.0
              && CheckBark(m, Some(39), dbh, ht, density) < 0.0
              && CheckBranch(m, Some(25), dbh, ht) < 0.0
  {
    assert CheckBark(m, Some(26), dbh, ht, density) == -0.025 + 0.00134 * Sq(dbh) * ht by {
      assert BarkEquation(26) == LinearRaw(-0.025, 0.00134);
    }
    assert CheckBark(m, Some(27), dbh, ht, density) == -1.2 + 29.1 * Sq(dbh / 100.0) * ht by {
      assert BarkEquation(27) == Linear(-1.2, 29.1);
    }
    assert CheckBark(m, Some(39), dbh, ht, density) == -1.2 + 24.0 * Sq(dbh / 100.0) * ht by {
      assert BarkEquation(39) == Linear(-1.2, 24.0);
    }
    assert CheckBranch(m, Some(25), dbh, ht) == -0.6 + 45.1 * Sq(dbh / 100.0) * ht by {
      assert Branch.Equation(25) == Linear(-0.6, 45.1);
    }
  }
}
