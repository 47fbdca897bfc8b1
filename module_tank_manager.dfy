/** The part module that hosts a tank manager (ModuleTankManager.cs). Until
    the manager exists the module prices and weighs the configuration of
    its save; once created, the manager is loaded from the save and shares
    the module's `Volume`, which never drops below the volume the tanks
    use. Rescaling events from other mods scale the tanks and the volume
    together. */
module ModuleTankManagers {
  import opened Util
  import opened TankTypes
  import opened Volumes
  import opened SwitchableTanks
  import opened TankManagers
  import opened ResourceTanks

  /** `OnPartScaleChanged`'s factor: the relative one, except that a module
      whose save came from the prefab takes the absolute factor when the
      relative one is 1. */
  function ScaleFactor(fromPrefab: bool, relative: real, absolute: real): (r: real)
    ensures relative != 1.0 ==> r == relative
    ensures r == 1.0 <==> relative == 1.0 && (!fromPrefab || absolute == 1.0)
  {
    if fromPrefab && relative == 1.0 && absolute != 1.0 then absolute else relative
  }

  class ModuleTankManager {
    /** The `AbstractResourceTank` part of the module. */
    const base: ResourceTank
    const part: Part
    /** `tank_manager`, created on first start. */
    var manager: SwitchableTankManager?
    /** `ModuleSave`, read as the configuration it describes. */
    var moduleSave: Option<Volume>
    /** False once the module has disabled itself. */
    var enabled: bool

    /** The manager, once there is one, is consistent and belongs to the part. */
    ghost predicate ManagerValid()
      reads this, manager, part, if manager != null then manager.tanks else []
    {
      manager != null ==> manager.part == part && manager.Valid()
    }

    /** The tanks fit in the manager's volume. */
    ghost predicate Valid()
      reads this, manager, part, if manager != null then manager.tanks else []
    {
      ManagerValid() && (manager != null ==> manager.Used() <= manager.volume)
    }

    /** The manager's volume is the module's. */
    ghost predicate Synced()
      reads this, base, manager
    {
      manager != null ==> manager.volume == base.volume
    }

    constructor (part: Part, base: ResourceTank)
      ensures this.part == part && this.base == base
      ensures manager == null && moduleSave.None? && enabled
      ensures Valid()
    {
      this.part := part;
      this.base := base;
      manager := null;
      moduleSave := None;
      enabled := true;
    }

    /** The guard of `TankCost`, `TankMass`, `ResourcesCost` and
        `ResourcesMass`: the save's configuration is measured only while
        there is a save and no manager yet; otherwise the module adds 0. */
    function SavedMeasure(lib: Library, m: Measure): (r: real)
      reads this`moduleSave, this`manager
      ensures moduleSave.None? || manager != null ==> r == 0.0
      ensures moduleSave.Some? && manager == null ==> r == Measured(lib, moduleSave.value, m, 1.0)
    {
      if moduleSave.None? || manager != null then 0.0
      else Measured(lib, moduleSave.value, m, 1.0)
    }

    /** `GetModuleCost` of this module. */
    method GetModuleCost(lib: Library, defaultCost: real, isPrefab: bool) returns (r: real)
      modifies base`costPatch, base`doCostPatch
      ensures r == SavedMeasure(lib, CostOf)
                   + SavedMeasure(lib, ResourcesOf(UnitCost, !isPrefab)) + base.costPatch
      ensures old(base.doCostPatch) ==>
                base.costPatch == Patch(SavedMeasure(lib, CostOf) + SavedMeasure(lib, ResourcesOf(UnitCost, false)), defaultCost)
      ensures !old(base.doCostPatch) ==> base.costPatch == old(base.costPatch)
    {
      var cost := SavedMeasure(lib, CostOf);
      var current := SavedMeasure(lib, ResourcesOf(UnitCost, false));
      var full := SavedMeasure(lib, ResourcesOf(UnitCost, true));
      r := base.GetModuleCost(cost, current, full, defaultCost, isPrefab);
    }

    /** `GetModuleMass` of this module. */
    method GetModuleMass(lib: Library, defaultMass: real) returns (r: real)
      modifies base`massPatch, base`doMassPatch
      ensures r == SavedMeasure(lib, AddMassOf) + base.massPatch
      ensures old(base.doMassPatch) ==> base.massPatch == Patch(SavedMeasure(lib, AddMassOf), defaultMass)
      ensures !old(base.doMassPatch) ==> base.massPatch == old(base.massPatch)
    {
      var mass := SavedMeasure(lib, AddMassOf);
      r := base.GetModuleMass(mass, defaultMass);
    }

    /** `OnLoad`: the node becomes the save; the save counts as the
        prefab's when the game is loading or the node asks to be
        reinitialized (`MM_REINITIALIZE`). */
    method OnLoad(node: Volume, loading: bool, reinitialize: bool)
      modifies this`moduleSave, base`moduleSaveFromPrefab
      ensures moduleSave == Some(node)
      ensures base.moduleSaveFromPrefab <==> loading || reinitialize
    {
      base.OnLoad(loading);
      moduleSave := Some(node);
      base.moduleSaveFromPrefab := base.moduleSaveFromPrefab || reinitialize;
    }

    /** `init_from_part`: the save is rebuilt from the part's resources
        (`FindTankType` is `find`), the volume becomes the total volume of
        those tanks, and only the mass is to be patched. A resource no
        tank type holds disables the module and changes nothing else. */
    method InitFromPart(resources: seq<ResourceState>, find: string -> Option<TankType>) returns (cfg: Option<Volume>)
      modifies this`moduleSave, this`enabled, base`volume, base`doCostPatch, base`doMassPatch
      ensures cfg.Some? <==> forall i :: 0 <= i < |resources| ==> FromResource(resources[i], find(resources[i].name)).Some?
      ensures cfg.None? ==> !enabled && moduleSave == old(moduleSave) && base.volume == old(base.volume)
      ensures cfg.None? ==> base.doCostPatch == old(base.doCostPatch) && base.doMassPatch == old(base.doMassPatch)
      ensures cfg.Some? ==>
        && enabled == old(enabled) && moduleSave == cfg && cfg.value.Configuration?
        && base.volume == cfg.value.volume == TotalVolume(cfg.value.volumes)
        && !base.doCostPatch && base.doMassPatch
        && |cfg.value.volumes| == |resources|
        && forall i :: 0 <= i < |resources| ==> Some(cfg.value.volumes[i]) == FromResource(resources[i], find(resources[i].name))
    {
      var volume := FromResources(resources, find);
      if volume.None? {
        enabled := false;
        return None;
      }
      var name := if moduleSave.Some? && moduleSave.value.Configuration? then moduleSave.value.name else "";
      cfg := Some(Configuration(volume.value.volume, name, volume.value.volumes));
      moduleSave := cfg;
      base.volume := volume.value.volume;
      base.doCostPatch := false;
      base.doMassPatch := true;
    }

    /** `init_tank_manager`: nothing happens once a manager exists.
        Otherwise the manager is created and, when there is a save, loaded
        from the save at the module's volume; the volume is raised to the
        volume the loaded tanks use, and the manager gets it. From then on
        the module adds no cost or mass of its own. */
    method InitTankManager(lib: Library, editor: bool, partVolume: real)
      requires Valid() && Loaded(lib)
      modifies this`manager, this`moduleSave, base`volume, part
      ensures Valid()
      ensures old(manager) != null ==>
                manager == old(manager) && moduleSave == old(moduleSave) && base.volume == old(base.volume)
      ensures old(manager) == null && old(moduleSave).Some? ==> Synced()
      ensures old(manager) == null ==> manager != null && fresh(manager) && forall t :: t in manager.tanks ==> fresh(t)
      ensures old(manager) == null && old(moduleSave).None? ==> manager.tanks == [] && base.volume == old(base.volume)
      ensures old(manager) == null && old(moduleSave).Some? ==>
                base.volume == Max(old(base.volume), manager.Used())
      ensures forall m :: SavedMeasure(lib, m) == 0.0
    {
      if manager != null {
        return;
      }
      var m := new SwitchableTankManager(part);
      manager := m;
      if moduleSave.None? {
        return;
      }
      var cfg := WithVolume(moduleSave.value, base.volume);
      moduleSave := Some(cfg);
      base.volume := LoadManager(m, cfg, lib, editor, partVolume);
    }

    /** `OnStart`: in flight, a save from the prefab means the module was
        added to an existing part and is first built from the part's
        resources; then the manager is set up. */
    method OnStart(flight: bool, resources: seq<ResourceState>, find: string -> Option<TankType>,
                   lib: Library, editor: bool, partVolume: real)
      requires Valid() && Loaded(lib)
      modifies this`manager, this`moduleSave, this`enabled, base`volume, base`doCostPatch, base`doMassPatch, part
      ensures Valid() && manager != null
      ensures !(flight && base.moduleSaveFromPrefab) ==>
                enabled == old(enabled) && base.doCostPatch == old(base.doCostPatch) && base.doMassPatch == old(base.doMassPatch)
      ensures flight && base.moduleSaveFromPrefab && old(manager) == null && enabled ==> !base.doCostPatch && base.doMassPatch
    {
      if flight && base.moduleSaveFromPrefab {
        var cfg := InitFromPart(resources, find);
      }
      InitTankManager(lib, editor, partVolume);
    }

    /** `SetVolume`: with a manager the volume is floored at the volume the
        tanks use and handed to the manager too. */
    method SetVolume(v: real)
      requires ManagerValid()
      modifies base`volume, manager
      ensures Valid() && Synced() && manager == old(manager)
      ensures manager == null ==> base.volume == v
      ensures manager != null ==> base.volume == Max(v, manager.Used()) && manager.tanks == old(manager.tanks)
      ensures manager != null ==> VolumesOf(manager.tanks) == old(VolumesOf(manager.tanks))
    {
      var vol := v;
      if manager != null {
        vol := FloorVolume(manager, v);
      }
      base.volume := vol;
    }

    /** `Rescale`: the tanks are rescaled first, then the volume by the same
        factor, subject to the floor of `SetVolume` (`RescaledFits` says
        when the floor does not bite). */
    method Rescale(s: real, updateAmounts: bool)
      requires Valid()
      modifies base`volume, manager, part, if manager != null then manager.tanks else []
      ensures Valid() && Synced() && manager == old(manager)
      ensures manager == null ==> base.volume == Scaled(old(base.volume), s)
      ensures manager != null ==> base.volume == Max(Scaled(old(base.volume), s), manager.Used())
      ensures manager != null && s > 0.0 ==>
                VolumesOf(manager.tanks) == ScaledUpTo(old(VolumesOf(manager.tanks)), |manager.tanks|, s)
      ensures manager != null && s <= 0.0 ==> VolumesOf(manager.tanks) == old(VolumesOf(manager.tanks))
      ensures manager != null && s > 0.0 ==>
                part.resources == Refitted(old(part.resources), FitsOf(manager.tanks), updateAmounts)
      ensures manager == null || s <= 0.0 ==> part.resources == old(part.resources)
    {
      var target := Scaled(base.volume, s);
      if manager != null {
        RescaleTanksOf(manager, s, updateAmounts);
      }
      ghost var fits := if manager != null then FitsOf(manager.tanks) else [];
      SetVolume(target);
      assert manager != null ==> FitsOf(manager.tanks) == fits;
    }

    /** `OnPartVolumeChanged`: a change of the "Tankage" volume rescales by
        the ratio of the new volume to the old, so the module ends up with
        the new volume, or with the volume its tanks use when that is more. */
    method OnPartVolumeChanged(volName: string, newTotalVolume: real, editor: bool)
      requires Valid()
      modifies base`volume, manager, part, if manager != null then manager.tanks else []
      ensures Valid() && manager == old(manager)
      ensures volName != "Tankage" ==> base.volume == old(base.volume)
      ensures volName == "Tankage" ==> Synced()
      ensures volName == "Tankage" && old(base.volume) != 0.0 && manager == null ==> base.volume == newTotalVolume
      ensures volName == "Tankage" && old(base.volume) != 0.0 && manager != null ==>
                base.volume == Max(newTotalVolume, manager.Used())
      ensures volName == "Tankage" && manager != null && Ratio(newTotalVolume, old(base.volume)) > 0.0 ==>
                part.resources == Refitted(old(part.resources), FitsOf(manager.tanks), editor)
      ensures volName != "Tankage" || manager == null || Ratio(newTotalVolume, old(base.volume)) <= 0.0 ==>
                part.resources == old(part.resources)
    {
      if volName == "Tankage" {
        var s := Ratio(newTotalVolume, base.volume);
        RatioRestores(newTotalVolume, base.volume, s);
        Rescale(s, editor);
      }
    }

    /** `OnPartScaleChanged`: a linear factor other than 1 rescales the
        volume by its cube. */
    method OnPartScaleChanged(relative: real, absolute: real)
      requires Valid()
      modifies base`volume, manager, part, if manager != null then manager.tanks else []
      ensures Valid() && manager == old(manager)
      ensures var f := ScaleFactor(old(base.moduleSaveFromPrefab), relative, absolute);
        && (f == 1.0 ==> base.volume == old(base.volume))
        && (f != 1.0 ==> Synced())
        && (f != 1.0 && manager == null ==> base.volume == Scaled(old(base.volume), Cube(f)))
        && (f != 1.0 && manager != null ==> base.volume == Max(Scaled(old(base.volume), Cube(f)), manager.Used()))
        && (f != 1.0 && manager != null && Cube(f) > 0.0 ==>
              part.resources == Refitted(old(part.resources), FitsOf(manager.tanks), false))
        && (f == 1.0 || manager == null || Cube(f) <= 0.0 ==> part.resources == old(part.resources))
    {
      var f := ScaleFactor(base.moduleSaveFromPrefab, relative, absolute);
      if f != 1.0 {
        Rescale(Cube(f), false);
      }
    }
  }

  /** A volume scaled by a factor. */
  function Scaled(volume: real, s: real): real
  {
    volume * s
  }

  /** The volume factor of a linear scale factor. */
  function Cube(f: real): (r: real)
    ensures f > 0.0 ==> r > 0.0
  {
    f * f * f
  }

  /** The manager's part of `SetVolume`: the requested volume, floored at
      the volume the tanks use, becomes the manager's. */
  method FloorVolume(m: SwitchableTankManager, v: real) returns (vol: real)
    requires m.Valid()
    modifies m`volume, m`tanksVolume, m`availableVolume, m`availableVolumePercent
    ensures m.Valid() && vol == Max(v, m.Used()) && m.volume == vol
    ensures VolumesOf(m.tanks) == old(VolumesOf(m.tanks))
  {
    vol := v;
    var used := m.TanksVolume();
    if used > vol {
      vol := m.TanksVolume();
    }
    m.SetVolume(vol);
  }

  /** The manager's part of `init_tank_manager`: the manager is loaded from
      the configuration at the configuration's volume, and that volume,
      raised to what the loaded tanks use, becomes the manager's. */
  method LoadManager(m: SwitchableTankManager, cfg: Volume, lib: Library, editor: bool, partVolume: real)
    returns (vol: real)
    requires m.Valid() && Loaded(lib)
    modifies m, m.part
    ensures m.Valid() && vol == Max(cfg.volume, m.Used()) && m.volume == vol
    ensures forall t :: t in m.tanks ==> fresh(t)
  {
    var loaded := m.LoadConfiguration(cfg, lib, editor, partVolume);
    vol := cfg.volume;
    var used := m.TanksVolume();
    if used > vol {
      vol := used;
    }
    m.SetVolume(vol);
  }

  /** The manager's part of `Rescale`: `RescaleTanks` with the tank
      positions it needs; tanks of no negative volume use `s` times the
      volume they used. */
  method RescaleTanksOf(m: SwitchableTankManager, s: real, updateAmounts: bool)
    requires m.Valid()
    modifies m, m.tanks, m.part
    ensures m.Valid() && m.tanks == old(m.tanks)
    ensures s > 0.0 ==> VolumesOf(m.tanks) == ScaledUpTo(old(VolumesOf(m.tanks)), |m.tanks|, s)
    ensures s <= 0.0 ==> VolumesOf(m.tanks) == old(VolumesOf(m.tanks))
    ensures s > 0.0 ==> m.part.resources == Refitted(old(m.part.resources), FitsOf(m.tanks), updateAmounts)
    ensures s <= 0.0 ==> m.part.resources == old(m.part.resources)
  {
    ghost var pos := m.TankPositions();
    m.RescaleTanks(s, updateAmounts, pos);
  }

  /** Tanks of no negative volume that fit in a volume still fit once both
      are scaled by the same positive factor, so `Rescale` then scales the
      module volume exactly. */
  lemma RescaledFits(vols: seq<real>, volume: real, s: real)
    requires s > 0.0 && NonNegative(vols) && Sum(vols) <= volume
    ensures Max(Scaled(volume, s), Sum(ScaledUpTo(vols, |vols|, s))) == Scaled(volume, s)
  {
    assert Sum(ScaledUpTo(vols, |vols|, s)) == Sum(vols) * s by {
      ScaledAll(vols, s);
    }
    ScaleWithin(Sum(vols), Sum(ScaledUpTo(vols, |vols|, s)), volume, s);
  }

  lemma ScaleWithin(used: real, scaledUsed: real, volume: real, s: real)
    requires used <= volume && s > 0.0 && scaledUsed == used * s
    ensures Max(Scaled(volume, s), scaledUsed) == Scaled(volume, s)
  {
    MulNonNegative(volume - used, s);
    assert (volume - used) * s == volume * s - used * s;
  }

  /** Scaling a non-zero volume by the ratio of a new volume to it gives
      the new volume. */
  lemma RatioRestores(total: real, volume: real, s: real)
    requires s == Ratio(total, volume)
    ensures volume != 0.0 ==> Scaled(volume, s) == total
  {
  }
}
