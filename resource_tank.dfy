/** The common part of the resource tank modules (AbstractResourceTank.cs):
    the module volume, the one-shot cost and mass patches that keep a part's
    total cost and mass unchanged when a tank module is added to an existing
    part, and the flag telling that the module save came from the prefab.
    The abstract members `TankCost`, `ResourcesCost`, `TankMass` and
    `ResourcesMass` are implemented by the derived module; their values are
    passed in. */
module ResourceTanks {
  import opened Util

  /** `-Mathf.Min(x, defaultValue)`: what a patch adds so that a module
      worth `x` adds only what exceeds the part's default value. */
  function Patch(x: real, defaultValue: real): (r: real)
    ensures x + r == Max(x - defaultValue, 0.0)
    ensures r <= 0.0 || x < 0.0 || defaultValue < 0.0
  {
    -Min(x, defaultValue)
  }

  class ResourceTank {
    /** `CostPatch` and `DoCostPatch`. */
    var costPatch: real
    var doCostPatch: bool
    /** `DoMassPatch` and `MassPatch`. */
    var doMassPatch: bool
    var massPatch: real
    /** `ModuleSaveFromPrefab`: the save was received while the game was
        loading. */
    var moduleSaveFromPrefab: bool
    /** `Volume`, in cubic meters; -1 until it is known. */
    var volume: real

    constructor ()
      ensures costPatch == 0.0 && !doCostPatch && massPatch == 0.0 && !doMassPatch
      ensures !moduleSaveFromPrefab && volume == -1.0
    {
      costPatch := 0.0;
      doCostPatch := false;
      doMassPatch := false;
      massPatch := 0.0;
      moduleSaveFromPrefab := false;
      volume := -1.0;
    }

    /** `OnLoad`: the save is from the prefab when the game is loading. */
    method OnLoad(loading: bool)
      modifies this`moduleSaveFromPrefab
      ensures moduleSaveFromPrefab == loading
    {
      moduleSaveFromPrefab := loading;
    }

    /** `GetModuleCost`, given `TankCost(defaultCost)` as `cost`, and
        `ResourcesCost(false)` and `ResourcesCost(true)` as `current` and
        `full`. The patch is computed once, from the current resources; the
        prefab is priced with its current resources, any other part with
        full tanks. */
    method GetModuleCost(cost: real, current: real, full: real, defaultCost: real, isPrefab: bool) returns (r: real)
      modifies this`costPatch, this`doCostPatch
      ensures !doCostPatch
      ensures old(doCostPatch) ==> costPatch == Patch(cost + current, defaultCost)
      ensures !old(doCostPatch) ==> costPatch == old(costPatch)
      ensures r == cost + (if isPrefab then current else full) + costPatch
      ensures old(doCostPatch) && isPrefab ==> r == Max(cost + current - defaultCost, 0.0)
    {
      if doCostPatch {
        costPatch := Patch(cost + current, defaultCost);
        doCostPatch := false;
      }
      var res := if isPrefab then current else full;
      r := cost + res + costPatch;
    }

    /** `GetModuleMass`, given `TankMass(defaultMass)` as `mass`: the same
        one-shot patch, from the tank's mass alone. */
    method GetModuleMass(mass: real, defaultMass: real) returns (r: real)
      modifies this`massPatch, this`doMassPatch
      ensures !doMassPatch
      ensures old(doMassPatch) ==> massPatch == Patch(mass, defaultMass)
      ensures !old(doMassPatch) ==> massPatch == old(massPatch)
      ensures r == mass + massPatch
      ensures old(doMassPatch) ==> r == Max(mass - defaultMass, 0.0)
    {
      if doMassPatch {
        massPatch := Patch(mass, defaultMass);
        doMassPatch := false;
      }
      r := mass + massPatch;
    }
  }
}
