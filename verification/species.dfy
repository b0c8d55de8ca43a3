/** The volume equations by identifier, the wood type each belongs to, and
    the groups that share a computation. */
module Species {

  datatype WoodType = Softwood | Hardwood

  /** One constructor per volume equation. `E14_1` and `E14_2` are the
      equations numbered 14.1 and 14.2. */
  datatype EqId =
    E1 | E2 | E3 | E4 | E5 | E6 | E7 | E8 | E9 | E10 | E11 | E12 | E13 | E14 | E14_1 | E14_2 |
    E15 | E16 | E17 | E18 | E19 | E20 | E21 | E22 | E23 | E24 | E25 | E26 | E27 | E28 | E29 |
    E30 | E31 | E32 | E33 | E34 | E35 | E36 | E37 | E38 | E39 | E40 | E41 | E42 | E43 | E44 |
    E45 | E46

  /** Every equation, in the order of the package's `ALL_EQNS`. */
  const AllEqns: seq<EqId> := [
    E1, E2, E3, E4, E5, E6, E7, E8, E9, E10, E11, E12, E13, E14, E14_1, E14_2, E15, E16, E17,
    E18, E19, E20, E21, E22, E23, E24, E25, E26, E27, E28, E29, E30, E31, E32, E33, E34, E35,
    E36, E37, E38, E39, E40, E41, E42, E43, E44, E45, E46
  ]

  /** The equation number the class records (`eq_num` / `eq_number`). */
  function Number(e: EqId): real {
    match e
    case E1 => 1.0
    case E2 => 2.0
    case E3 => 3.0
    case E4 => 4.0
    case E5 => 5.0
    case E6 => 6.0
    case E7 => 7.0
    case E8 => 8.0
    case E9 => 9.0
    case E10 => 10.0
    case E11 => 11.0
    case E12 => 12.0
    case E13 => 13.0
    case E14 => 14.0
    case E14_1 => 14.1
    case E14_2 => 14.2
    case E15 => 15.0
    case E16 => 16.0
    case E17 => 17.0
    case E18 => 18.0
    case E19 => 19.0
    case E20 => 20.0
    case E21 => 21.0
    case E22 => 22.0
    case E23 => 23.0
    case E24 => 24.0
    case E25 => 25.0
    case E26 => 26.0
    case E27 => 27.0
    case E28 => 28.0
    case E29 => 29.0
    case E30 => 30.0
    case E31 => 31.0
    case E32 => 32.0
    case E33 => 33.0
    case E34 => 34.0
    case E35 => 35.0
    case E36 => 36.0
    case E37 => 37.0
    case E38 => 38.0
    case E39 => 39.0
    case E40 => 40.0
    case E41 => 41.0
    case E42 => 42.0
    case E43 => 43.0
    case E44 => 44.0
    case E45 => 45.0
    case E46 => 46.0
  }

  /** Equations 1 to 24 (with 14.1 and 14.2) are softwoods, 25 to 46 hardwoods. */
  function Wood(e: EqId): (w: WoodType)
    ensures w == Hardwood <==> Number(e) >= 25.0
  {
    if Number(e) >= 25.0 then Hardwood else Softwood
  }

  /** Species measured at the root collar (DRC) whose only equation is for CVTS. */
  predicate IsDrc(e: EqId) {
    e in {E14, E14_1, E14_2, E45, E46}
  }

  /** Softwoods whose volumes come from a cubic form factor (CF4) and the
      two-regime small-tree tarif. */
  predicate IsFormFactor(e: EqId) {
    e in {E3, E5, E16, E18, E19, E20, E23}
  }

  /** Softwoods whose tarif number is derived from a CVTS equation. */
  predicate IsSoftTarif(e: EqId) {
    e in {E1, E2, E4, E6, E7, E8, E9, E10, E11, E12, E13, E15, E17, E21, E22, E24}
  }

  /** Hardwoods of the Pillsbury power-law form, with CV4 and CV8 equations
      of their own. */
  predicate IsPowerLaw(e: EqId) {
    e in {E32, E33, E34, E35, E36, E37, E38, E39, E40, E41, E42, E43, E44}
  }

  /** Hardwoods derived from a CVTS (or, for red alder, a CVT) equation. */
  predicate IsHardTarif(e: EqId) {
    e in {E25, E26, E27, E28, E29, E30, E31}
  }

  /** The Pillsbury power-law hardwoods whose CV8 carries a form-class term. */
  predicate HasFormClass(e: EqId) {
    e in {E37, E38, E39, E40, E41, E42, E43, E44}
  }

  /** The equation ids for which the class version's `HW_BFConversion`
      passes CVT and TARIF through unchanged as CV4X and TARIFX. */
  predicate PassesThroughX(eqNumber: real) {
    25.0 <= eqNumber <= 31.0
  }

  /** The computation an equation follows: its group, with red alder, the
      one hardwood tarif equation computed from a CVT equation, on its own. */
  datatype Family = AtCollar | ByFormFactor | BySoftTarif | RedAlder | ByHardTarif | ByPowerLaw

  function FamilyOf(e: EqId): (f: Family)
    ensures f == AtCollar <==> IsDrc(e)
    ensures f == ByFormFactor <==> IsFormFactor(e)
    ensures f == BySoftTarif <==> IsSoftTarif(e)
    ensures f == RedAlder <==> e == E25
    ensures f == ByHardTarif <==> IsHardTarif(e) && e != E25
    ensures f == ByPowerLaw <==> IsPowerLaw(e)
  {
    if IsDrc(e) then AtCollar
    else if IsFormFactor(e) then ByFormFactor
    else if IsSoftTarif(e) then BySoftTarif
    else if e == E25 then RedAlder
    else if IsHardTarif(e) then ByHardTarif
    else PowerLawRemainder(e); ByPowerLaw
  }

  /** The wood type follows the base class each family's classes derive
      from: the form-factor and softwood tarif equations and the three
      pinyon-juniper collars are softwoods; red alder, the hardwood tarif and
      power-law equations and the mahogany and mesquite collars are hardwoods. */
  lemma WoodByFamily(e: EqId)
    ensures Wood(e) == Softwood <==>
              FamilyOf(e) in {ByFormFactor, BySoftTarif} || e in {E14, E14_1, E14_2}
    ensures Wood(e) == Hardwood <==>
              FamilyOf(e) in {RedAlder, ByHardTarif, ByPowerLaw} || e in {E45, E46}
  {
  }

  /** Each equation is in exactly one group. */
  lemma GroupsPartition(e: EqId)
    ensures IsDrc(e) || IsFormFactor(e) || IsSoftTarif(e) || IsHardTarif(e) || IsPowerLaw(e)
    ensures IsSoftTarif(e) <==> Wood(e) == Softwood && !IsFormFactor(e) && !IsDrc(e)
    ensures IsHardTarif(e) <==> 25.0 <= Number(e) <= 31.0
    ensures IsPowerLaw(e) <==> 32.0 <= Number(e) <= 44.0
    ensures HasFormClass(e) ==> IsPowerLaw(e)
    ensures IsFormFactor(e) ==> Wood(e) == Softwood && !IsDrc(e)
    ensures IsHardTarif(e) || IsPowerLaw(e) ==> Wood(e) == Hardwood && !IsDrc(e)
    ensures !(IsHardTarif(e) && IsPowerLaw(e))
  {
    GroupsByNumber(e);
    GroupsByWood(e);
  }

  /** The hardwood groups as ranges of equation numbers. */
  lemma GroupsByNumber(e: EqId)
    ensures IsHardTarif(e) <==> 25.0 <= Number(e) <= 31.0
    ensures IsPowerLaw(e) <==> 32.0 <= Number(e) <= 44.0
  {
    HardTarifByNumber(e);
    PowerLawByNumber(e);
  }

  lemma HardTarifByNumber(e: EqId)
    ensures IsHardTarif(e) <==> 25.0 <= Number(e) <= 31.0
  {
  }

  lemma PowerLawByNumber(e: EqId)
    ensures IsPowerLaw(e) <==> 32.0 <= Number(e) <= 44.0
  {
  }

  /** The groups cover every id, and each lies within one wood type. */
  lemma GroupsByWood(e: EqId)
    ensures IsDrc(e) || IsFormFactor(e) || IsSoftTarif(e) || IsHardTarif(e) || IsPowerLaw(e)
    ensures IsSoftTarif(e) <==> Wood(e) == Softwood && !IsFormFactor(e) && !IsDrc(e)
    ensures HasFormClass(e) ==> IsPowerLaw(e)
    ensures IsFormFactor(e) ==> Wood(e) == Softwood && !IsDrc(e)
    ensures IsHardTarif(e) || IsPowerLaw(e) ==> Wood(e) == Hardwood && !IsDrc(e)
  {
    GroupsCover(e);
    SoftTarifByWood(e);
    HardGroupsByWood(e);
  }

  lemma SoftTarifByWood(e: EqId)
    ensures IsSoftTarif(e) <==> Wood(e) == Softwood && !IsFormFactor(e) && !IsDrc(e)
  {
  }

  lemma HardGroupsByWood(e: EqId)
    ensures IsHardTarif(e) || IsPowerLaw(e) ==> Wood(e) == Hardwood && !IsDrc(e)
  {
    if IsHardTarif(e) || IsPowerLaw(e) {
      GroupsByNumber(e);
    }
  }

  lemma GroupsCover(e: EqId)
    ensures IsDrc(e) || IsFormFactor(e) || IsSoftTarif(e) || IsHardTarif(e) || IsPowerLaw(e)
  {
  }

  /** The two facts the volume dispatch needs: an id outside every other group
      is a power law, and so is a hardwood outside the tarif group. */
  lemma PowerLawRemainder(e: EqId)
    ensures !IsDrc(e) && !IsFormFactor(e) && !IsSoftTarif(e) && !IsHardTarif(e) ==> IsPowerLaw(e)
    ensures !IsDrc(e) && Wood(e) == Hardwood && !IsHardTarif(e) ==> IsPowerLaw(e)
  {
  }
}
