/** A switchable tank (ModuleSwitchableTank.cs): a tank of some tank type
    that holds at most one resource of the part at a time. The resource can
    be switched, or the tank type changed, only while the tank is empty. The
    host part is reduced to its resources by name; the scene (editor or
    flight), the part's volume and the library of tank types are inputs. */
module SwitchableTanks {
  import opened Util
  import opened SortedLists
  import opened TankTypes
  import opened Volumes

  /** What the tanks use of a `PartResource`. */
  datatype PartResource = PartResource(amount: real, maxAmount: real, def: ResourceDef)

  /** The host part's resources, shared by all tanks of the part. */
  class Part {
    var resources: map<string, PartResource>

    constructor (resources: map<string, PartResource>)
      ensures this.resources == resources
    {
      this.resources := resources;
    }
  }

  /** A change of the part's resources that touches at most `current` and
      the released resource: every other resource is kept as it was, and no
      resource but `current` is added. */
  ghost predicate OthersKept(before: map<string, PartResource>, after: map<string, PartResource>,
                             current: string, released: Option<string>)
  {
    && (forall k :: k in before && k != current && Some(k) != released ==> k in after && after[k] == before[k])
    && (forall k :: k in after ==> k in before || k == current)
  }

  /** A step that only rewrites the released resource, followed by one that
      keeps the others, keeps the others. */
  lemma OthersKeptAfter(a: map<string, PartResource>, b: map<string, PartResource>, c: map<string, PartResource>,
                        current: string, released: Option<string>)
    requires b.Keys == a.Keys
    requires forall k :: k in a && Some(k) != released ==> b[k] == a[k]
    requires OthersKept(b, c, current, released)
    ensures OthersKept(a, c, current, released)
  {
    forall k | k in c
      ensures k in a || k == current
    {
      assert k in b || k == current;
    }
  }

  // ---------------------------------------------------------------------
  // Resource arithmetic
  // ---------------------------------------------------------------------

  /** The `Amount` setter: the new amount is clamped to [0, maxAmount]. */
  function WithAmount(r: PartResource, a: real): (n: PartResource)
    ensures n.maxAmount == r.maxAmount && n.def == r.def
    ensures 0.0 <= r.maxAmount ==> 0.0 <= n.amount <= n.maxAmount
    ensures 0.0 <= a <= r.maxAmount ==> n.amount == a
    ensures a < 0.0 ==> n.amount == 0.0
    ensures 0.0 <= r.maxAmount < a ==> n.amount == r.maxAmount
  {
    PartResource(Clamp(a, 0.0, r.maxAmount), r.maxAmount, r.def)
  }

  /** `UpdateMaxAmount` on the resource: the new capacity, an amount cut down
      to it, and, when asked, the fill ratio kept. */
  function WithMaxAmount(r: PartResource, newMax: real, updateAmount: bool): (n: PartResource)
    ensures n.maxAmount == newMax && n.def == r.def
    ensures 0.0 <= r.amount <= r.maxAmount ==> n.amount <= n.maxAmount
    ensures 0.0 <= r.amount && 0.0 <= newMax ==> 0.0 <= n.amount
    ensures r.amount > newMax ==> n.amount == newMax
    ensures r.amount <= newMax && !updateAmount ==> n.amount == r.amount
    ensures r.amount <= newMax && updateAmount && r.maxAmount > 0.0 ==> n.amount * r.maxAmount == r.amount * newMax
  {
    var a :=
      if r.amount > newMax then newMax
      else if updateAmount && r.maxAmount > 0.0 then ScaledAmount(r.amount, r.maxAmount, newMax)
      else r.amount;
    PartResource(a, newMax, r.def)
  }

  /** `amount * (newMax / oldMax)`. */
  function ScaledAmount(amount: real, oldMax: real, newMax: real): (a: real)
    requires oldMax > 0.0
    ensures a * oldMax == amount * newMax
    ensures 0.0 <= amount <= oldMax && amount <= newMax ==> 0.0 <= a <= newMax
  {
    var f := newMax / oldMax;
    assert f * oldMax == newMax;
    ScaleBound(amount, oldMax, f);
    amount * f
  }

  lemma ScaleBound(amount: real, oldMax: real, f: real)
    requires oldMax > 0.0
    ensures 0.0 <= amount <= oldMax && 0.0 <= f ==> 0.0 <= amount * f <= oldMax * f
  {
  }

  /** `ResourceAmountInVolume`: the units of the resource a volume holds,
      0 without a tank type or resource. */
  function AmountInVolume(t: Option<TankType>, info: Option<TankResource>, v: real): (r: real)
    ensures t.None? || info.None? ==> r == 0.0
  {
    if t.None? || info.None? then 0.0 else t.value.usefulVolume(v) * info.value.unitsPerVolume
  }

  /** `VolumeForResourceAmount`: the volume that holds an amount, 0 without a
      tank type or resource, infinite when the effective volume ratio is not
      positive. */
  function VolumeForAmount(t: Option<TankType>, info: Option<TankResource>, amount: real): (r: Extended)
    ensures t.None? || info.None? ==> r == Finite(0.0)
    ensures t.Some? && info.Some? ==> (r.PositiveInfinity? <==> t.value.effectiveVolumeRatio <= 0.0)
  {
    if t.None? || info.None? then Finite(0.0)
    else if t.value.effectiveVolumeRatio > 0.0 then
      Finite(Ratio(Ratio(amount, info.value.unitsPerVolume), t.value.effectiveVolumeRatio))
    else PositiveInfinity
  }

  /** When the useful volume of the tank type is its effective fraction of
      the volume, the volume for the amount a volume holds is that volume... */
  lemma VolumeForAmountRoundTrip(t: TankType, info: TankResource, v: real)
    requires info.unitsPerVolume != 0.0 && t.effectiveVolumeRatio > 0.0
    requires t.usefulVolume(v) == v * t.effectiveVolumeRatio
    ensures VolumeForAmount(Some(t), Some(info), AmountInVolume(Some(t), Some(info), v)) == Finite(v)
  {
    var e := t.effectiveVolumeRatio;
    var u := info.unitsPerVolume;
    assert AmountInVolume(Some(t), Some(info), v) == v * e * u;
    assert Ratio(v * e * u, u) == v * e;
    assert Ratio(v * e, e) == v;
  }

  /** ...and the amount held by the volume for an amount is that amount. */
  lemma AmountForVolumeRoundTrip(t: TankType, info: TankResource, a: real)
    requires info.unitsPerVolume != 0.0 && t.effectiveVolumeRatio > 0.0
    requires forall x :: t.usefulVolume(x) == x * t.effectiveVolumeRatio
    ensures var v := VolumeForAmount(Some(t), Some(info), a);
      v.Finite? && AmountInVolume(Some(t), Some(info), v.value) == a
  {
    var e := t.effectiveVolumeRatio;
    var u := info.unitsPerVolume;
    var v := VolumeForAmount(Some(t), Some(info), a).value;
    assert v * e == Ratio(a, u);
    assert Ratio(a, u) * u == a;
    assert t.usefulVolume(v) == v * e;
  }

  /** The manager's `ClampNewVolume`: a shrinking request stands; growth is
      capped by the available volume. */
  function ClampedVolume(oldVolume: real, newVolume: real, available: real): (r: real)
    ensures oldVolume > newVolume ==> r == newVolume
    ensures oldVolume <= newVolume ==> r <= newVolume && r <= oldVolume + available
    ensures newVolume - oldVolume <= available ==> r == newVolume
    ensures oldVolume <= newVolume && 0.0 <= available ==> oldVolume <= r
  {
    if oldVolume > newVolume then newVolume
    else if newVolume - oldVolume > available then oldVolume + available
    else newVolume
  }

  /** The volume `SetVolume` assigns: a negative request becomes 0, then the
      manager, if any, clamps it by its available volume. */
  function NewTankVolume(oldVolume: real, newVolume: real, available: Option<real>): (r: real)
    ensures available.None? ==> r == Max(newVolume, 0.0)
    ensures available.Some? ==> r == ClampedVolume(oldVolume, Max(newVolume, 0.0), available.value)
    ensures 0.0 <= oldVolume && (available.Some? ==> 0.0 <= available.value) ==> 0.0 <= r
  {
    var v := if newVolume < 0.0 then 0.0 else newVolume;
    if available.Some? then ClampedVolume(oldVolume, v, available.value) else v
  }

  /** The part resource `init_resource` plugs in: an existing one, whose
      capacity is reset in the editor or when it is empty, or a new one,
      filled to the initial fraction only when the tank is initializing. */
  function Acquired(existing: Option<PartResource>, def: ResourceDef, maxAmount: real,
                    initializing: bool, initialAmount: real, editor: bool): (r: PartResource)
    ensures existing.None? ==>
              r.maxAmount == maxAmount && r.def == def &&
              r.amount == (if initializing then maxAmount * initialAmount else 0.0)
    ensures existing.Some? && (editor || existing.value.amount == 0.0) ==>
      r == WithMaxAmount(existing.value, maxAmount, false)
    ensures existing.Some? && !editor && existing.value.amount != 0.0 ==> r == existing.value
  {
    match existing
    case None => PartResource(if initializing then maxAmount * initialAmount else 0.0, maxAmount, def)
    case Some(p) => if editor || p.amount == 0.0 then WithMaxAmount(p, maxAmount, false) else p
  }

  /** The resource cost or mass of a tank that has a part resource: its
      capacity, or the initial fraction of it, times the per-unit value. */
  function PluggedValue(r: PartResource, q: Quantity, maxAmount: bool, initialAmount: real): real
  {
    var full := r.maxAmount * PerUnit(q, r.def);
    if maxAmount then full else full * initialAmount
  }

  /** The resource cost or mass of a tank without a part resource: what its
      volume would hold of the current resource. */
  function UnpluggedValue(t: TankType, currentResource: string, volume: real, q: Quantity,
                          maxAmount: bool, initialAmount: real): (r: real)
    ensures ResourceOf(t, currentResource).None? ==> r == 0.0
  {
    match ResourceOf(t, currentResource)
    case None => 0.0
    case Some(info) =>
      var full := AmountInVolume(Some(t), Some(info), volume) * PerUnit(q, info.def);
      if maxAmount then full else full * initialAmount
  }

  /** A tank without a resource is valued as the tank volume of the same
      type, resource, volume and initial amount in a configuration, when its
      resource's units per cubic meter are a thousand times those per liter. */
  lemma UnpluggedAsTankVolume(lib: Library, t: TankType, currentResource: string, volume: real,
                              q: Quantity, maxAmount: bool, initialAmount: real)
    requires GetTankType(lib, t.name) == Some(t)
    requires ResourceOf(t, currentResource).Some? ==>
      ResourceOf(t, currentResource).value.unitsPerVolume == ResourceOf(t, currentResource).value.unitsPerLiter * 1000.0
    ensures UnpluggedValue(t, currentResource, volume, q, maxAmount, initialAmount) ==
      Measured(lib, TankVolume(volume, t.name, currentResource, initialAmount), ResourcesOf(q, maxAmount), 1.0)
  {
    var v := TankVolume(volume, t.name, currentResource, initialAmount);
    assert TypeOf(lib, v) == Some(t);
    match ResourceOf(t, currentResource)
    case None =>
    case Some(info) =>
      var p := PerUnit(q, info.def);
      var u := t.usefulVolume(volume);
      Thousandfold(u, info.unitsPerVolume, info.unitsPerLiter, p, initialAmount);
  }

  lemma Thousandfold(u: real, perVolume: real, perLiter: real, p: real, a: real)
    requires perVolume == perLiter * 1000.0
    ensures u * perVolume * p == p * perLiter * u * 1.0 * 1000.0
    ensures u * perVolume * p * a == p * perLiter * u * 1.0 * 1000.0 * a
  {
  }

  // ---------------------------------------------------------------------
  // The tank
  // ---------------------------------------------------------------------

  class SwitchableTank {
    const part: Part
    /** Assigned once, when the module is created. */
    const id: int
    var managed: bool
    /** `Volume`, in cubic meters; -1 until it is known. */
    var volume: real
    var includes: seq<string>
    var excludes: seq<string>
    /** `TankType`, the name, and `tank_type`, the type it was resolved to. */
    var tankTypeName: string
    var tankType: Option<TankType>
    var currentResource: string
    var previousResource: string
    /** `Resource`: the name of the part resource the tank manages, if any. */
    var resource: Option<string>
    var resourceInfo: Option<TankResource>
    var initialAmount: real
    var otherTanks: seq<SwitchableTank>

    /** The managed resource is one of the part's, and the tank is not
        registered with itself. */
    ghost predicate Valid()
      reads this`resource, this`otherTanks, part
    {
      && (resource.Some? ==> resource.value in part.resources)
      && this !in otherTanks
    }

    /** The resolved tank type lists the current resource. */
    ghost predicate TypeHoldsCurrent()
      reads this
    {
      tankType.Some? ==> ResourceOf(tankType.value, currentResource).Some?
    }

    /** A fresh module as `AddTank` sets it up before `OnStart`: managed,
        with the given id, volume, type name, filters, initial fill and
        resource name, and nothing resolved yet. */
    constructor (part: Part, id: int, volume: real, tankTypeName: string, includes: seq<string>, excludes: seq<string>,
                 initialAmount: real, currentResource: string)
      ensures this.part == part && Valid() && TypeHoldsCurrent()
      ensures this.id == id && managed && this.volume == volume && this.includes == includes && this.excludes == excludes
      ensures this.tankTypeName == tankTypeName && tankType.None? && this.currentResource == currentResource && previousResource == ""
      ensures resource.None? && resourceInfo.None? && this.initialAmount == initialAmount && otherTanks == []
    {
      this.part := part;
      this.id := id;
      managed := true;
      this.volume := volume;
      this.includes := includes;
      this.excludes := excludes;
      this.tankTypeName := tankTypeName;
      tankType := None;
      this.currentResource := currentResource;
      previousResource := "";
      resource := None;
      resourceInfo := None;
      this.initialAmount := initialAmount;
      otherTanks := [];
    }

    /** The `Amount` getter. */
    function Amount(): real
      reads this, part
      requires Valid()
    {
      if resource.Some? then part.resources[resource.value].amount else 0.0
    }

    /** `ResourceInUse`: the managed resource's name, or empty. */
    function ResourceInUse(): string
      reads this`resource
    {
      if resource.Some? then resource.value else ""
    }

    /** `resource_in_use`: some registered tank manages `res`. */
    predicate ResourceUsedByOthers(res: string)
      reads this, otherTanks
    {
      exists i :: 0 <= i < |otherTanks| && otherTanks[i].ResourceInUse() == res
    }

    function MaxResourceInVolume(): real
      reads this
    {
      AmountInVolume(tankType, resourceInfo, volume)
    }

    function VolumeForResourceAmount(amount: real): Extended
      reads this
    {
      VolumeForAmount(tankType, resourceInfo, amount)
    }

    /** The `Amount` setter: clamp to [0, maxAmount]; nothing without a resource. */
    method SetAmount(newAmount: real)
      requires Valid()
      modifies part
      ensures Valid()
      ensures resource.None? ==> part.resources == old(part.resources)
      ensures resource.Some? ==>
                part.resources == old(part.resources)[resource.value := WithAmount(old(part.resources[resource.value]), newAmount)]
    {
      if resource.Some? {
        var r := resource.value;
        part.resources := part.resources[r := WithAmount(part.resources[r], newAmount)];
      }
    }

    /** `UpdateMaxAmount`: set the capacity to what the volume holds. */
    method UpdateMaxAmount(updateAmount: bool)
      requires Valid()
      modifies part
      ensures Valid()
      ensures resource.None? ==> part.resources == old(part.resources)
      ensures resource.Some? ==>
                part.resources == old(part.resources)[resource.value :=
                  WithMaxAmount(old(part.resources[resource.value]), MaxResourceInVolume(), updateAmount)]
    {
      if resource.Some? {
        var r := resource.value;
        part.resources := part.resources[r := WithMaxAmount(part.resources[r], MaxResourceInVolume(), updateAmount)];
      }
    }

    /** `SetVolume`; `available` is the manager's available volume, `None`
        for a tank without a manager. */
    method SetVolume(newVolume: real, updateAmount: bool, available: Option<real>)
      requires Valid()
      modifies this`volume, part
      ensures Valid()
      ensures volume == NewTankVolume(old(volume), newVolume, available)
      ensures resource.None? ==> part.resources == old(part.resources)
      ensures resource.Some? ==>
                part.resources == old(part.resources)[resource.value :=
                  WithMaxAmount(old(part.resources[resource.value]), MaxResourceInVolume(), updateAmount)]
    {
      volume := NewTankVolume(volume, newVolume, available);
      UpdateMaxAmount(updateAmount);
    }

    /** `TryRemoveResource`: the resource leaves the part when it is empty;
        in the editor it is emptied first. A tank in use keeps its resource
        and its current resource and type names are restored. */
    method TryRemoveResource(editor: bool) returns (removed: bool)
      requires Valid()
      modifies this`currentResource, this`tankTypeName, this`resource, part
      ensures Valid()
      ensures removed <==> old(resource.None? || editor || part.resources[resource.value].amount <= 0.0)
      ensures removed ==> resource.None? && currentResource == old(currentResource) && tankTypeName == old(tankTypeName)
      ensures removed ==> part.resources == old(if resource.Some? then part.resources - {resource.value} else part.resources)
      ensures !removed ==> resource == old(resource) && part.resources == old(part.resources)
      ensures !removed ==> currentResource == old(resource).value
      ensures !removed ==> tankTypeName == (if tankType.Some? then tankType.value.name else old(tankTypeName))
    {
      if resource.None? {
        return true;
      }
      var r := resource.value;
      var amount := part.resources[r].amount;
      if editor {
        amount := 0.0;
      }
      if amount > 0.0 {
        currentResource := r;
        if tankType.Some? {
          tankTypeName := tankType.value.name;
        }
        return false;
      }
      part.resources := part.resources - {r};
      resource := None;
      return true;
    }

    /** `RegisterOtherTank`: add a tank to the registry once. */
    method RegisterOtherTank(t: SwitchableTank)
      modifies this`otherTanks
      ensures old(Valid()) && t != this ==> Valid()
      ensures t in otherTanks
      ensures old(t in otherTanks) ==> otherTanks == old(otherTanks)
      ensures !old(t in otherTanks) ==> otherTanks == old(otherTanks) + [t]
    {
      if t !in otherTanks {
        otherTanks := otherTanks + [t];
      }
    }

    /** `UnregisterOtherTank`: drop the first registration of a tank. */
    method UnregisterOtherTank(t: SwitchableTank) returns (removed: bool)
      modifies this`otherTanks
      ensures old(Valid()) ==> Valid()
      ensures removed == old(t in otherTanks)
      ensures otherTanks == RemoveFirst(old(otherTanks), t)
    {
      removed := t in otherTanks;
      RemoveFirstSpec(otherTanks, t);
      otherTanks := RemoveFirst(otherTanks, t);
    }

    /** `init_resource`: plug in the current resource unless the tank already
        has one, has no type, or another registered tank manages it. */
    method InitResource(editor: bool) returns (ok: bool)
      requires Valid() && TypeHoldsCurrent()
      modifies this`currentResource, this`previousResource, this`resourceInfo, this`resource, part
      ensures Valid()
      ensures ok <==> old(resource.None? && tankType.Some? && !ResourceUsedByOthers(currentResource))
      ensures old(resource).Some? ==> currentResource == old(resource).value && previousResource == old(previousResource)
      ensures old(resource).None? ==> currentResource == old(currentResource)
      ensures old(resource).None? && tankType.Some? ==> previousResource == old(currentResource)
      ensures old(resource).None? && tankType.None? ==> previousResource == old(previousResource)
      ensures !ok ==> resource == old(resource) && part.resources == old(part.resources)
      ensures ok ==> resource == Some(currentResource) && HoldsResource(tankType.value, currentResource)
      ensures ok ==> resourceInfo == ResourceOf(tankType.value, currentResource)
      ensures ok ==> part.resources == old(part.resources)[currentResource := Acquired(
        if currentResource in old(part.resources) then Some(old(part.resources)[currentResource]) else None,
        resourceInfo.value.def, MaxResourceInVolume(), old(previousResource) == "", initialAmount, editor)]
    {
      if resource.Some? {
        currentResource := resource.value;
        return false;
      }
      if tankType.None? {
        return false;
      }
      var initializing := previousResource == "";
      previousResource := currentResource;
      if ResourceUsedByOthers(currentResource) {
        return false;
      }
      resourceInfo := ResourceOf(tankType.value, currentResource);
      var maxAmount := MaxResourceInVolume();
      var existing := if currentResource in part.resources then Some(part.resources[currentResource]) else None;
      part.resources := part.resources[currentResource :=
        Acquired(existing, resourceInfo.value.def, maxAmount, initializing, initialAmount, editor)];
      resource := Some(currentResource);
      ok := true;
    }

    /** `switch_resource`: remove the resource, then plug in the current one. */
    method SwitchResource(editor: bool) returns (ok: bool)
      requires Valid() && TypeHoldsCurrent()
      modifies this`currentResource, this`previousResource, this`resourceInfo, this`resource, this`tankTypeName, part
      ensures Valid()
      ensures ok ==> resource == Some(currentResource) && currentResource == old(currentResource)
      ensures ok || editor ==> tankTypeName == old(tankTypeName)
      ensures tankTypeName == old(tankTypeName) || (tankType.Some? && tankTypeName == tankType.value.name)
      ensures ok ==> tankType.Some? && HoldsResource(tankType.value, currentResource)
      ensures ok ==> !old(ResourceUsedByOthers(currentResource))
      ensures ok && old(resource).Some? && old(resource) != Some(currentResource) ==> old(resource).value !in part.resources
      ensures old(resource).Some? && !editor && old(part.resources[resource.value].amount) > 0.0 ==>
        && !ok && resource == old(resource) && part.resources == old(part.resources)
        && currentResource == old(resource).value
      ensures OthersKept(old(part.resources), part.resources, currentResource, old(resource))
      ensures ok && old(previousResource) != "" && currentResource !in old(part.resources) ==>
        part.resources[currentResource].amount == 0.0
    {
      var removed := TryRemoveResource(editor);
      if !removed {
        return false;
      }
      ghost var mid := part.resources;
      ok := InitResource(editor);
      if ok && old(resource).Some? && old(resource) != Some(currentResource) {
        assert old(resource).value !in mid;
      }
    }

    /** The first supported tank type, which `init_tank_type` falls back to
        (the source indexes an empty list there; the model then leaves the
        name empty, so that the lookup fails). */
    static function FirstSupported(lib: Library, includes: seq<string>, excludes: seq<string>): (r: string)
      ensures r != "" ==> HaveTankType(lib, r)
    {
      var names := TankTypeNames(lib, includes, excludes);
      if |names| > 0 then names[0] else ""
    }

    /** `init_tank_type`: resolve the tank type by name (the first supported
        one when the name is empty) and reset an unknown current resource to
        the type's default resource. A negative volume is replaced by the
        part's volume first. */
    method InitTankType(lib: Library, partVolume: real) returns (ok: bool)
      requires Loaded(lib)
      modifies this`volume, this`tankTypeName, this`tankType, this`currentResource
      ensures volume == if old(volume) < 0.0 then partVolume else old(volume)
      ensures old(tankType).Some? ==> ok && tankType == old(tankType) && tankTypeName == old(tankTypeName) && currentResource == old(currentResource)
      ensures old(tankType).None? ==>
        && tankTypeName == (if old(tankTypeName) == "" then FirstSupported(lib, includes, excludes) else old(tankTypeName))
        && tankType == GetTankType(lib, tankTypeName)
        && ok == tankType.Some?
      ensures old(tankType).None? && !ok ==> currentResource == old(currentResource)
      ensures old(tankType).None? && ok ==>
                currentResource == (if old(currentResource) != "" && HoldsResource(tankType.value, old(currentResource))
                                    then old(currentResource) else DefaultResource(tankType.value))
      ensures ok && old(tankType).None? ==> TypeHoldsCurrent()
    {
      if volume < 0.0 {
        volume := partVolume;
      }
      if tankType.Some? {
        return true;
      }
      if tankTypeName == "" {
        tankTypeName := FirstSupported(lib, includes, excludes);
      }
      tankType := GetTankType(lib, tankTypeName);
      if tankType.None? {
        return false;
      }
      if currentResource == "" || !HoldsResource(tankType.value, currentResource) {
        currentResource := DefaultResource(tankType.value);
      }
      ok := true;
    }

    /** `change_tank_type`: refused in flight while the tank is in use (the
        type name is restored); in the editor the tank is emptied. The type is
        then resolved anew and the resource switched. */
    method ChangeTankType(lib: Library, editor: bool, partVolume: real) returns (ok: bool)
      requires Valid() && Loaded(lib)
      modifies this`volume, this`tankTypeName, this`tankType, this`currentResource, this`previousResource,
        this`resourceInfo, this`resource, part
      ensures Valid()
      ensures old(tankType.Some? && resource.Some? && part.resources[resource.value].amount > 0.0) && !editor ==>
        && !ok && tankType == old(tankType) && tankTypeName == old(tankType).value.name
        && resource == old(resource) && currentResource == old(currentResource) && part.resources == old(part.resources)
      ensures ok ==> tankType.Some? && tankType == GetTankType(lib, tankTypeName) && tankType.value.name == tankTypeName
      ensures ok ==> resource == Some(currentResource) && HoldsResource(tankType.value, currentResource)
      ensures ok || editor ==>
                tankTypeName == (if old(tankTypeName) == "" then FirstSupported(lib, includes, excludes) else old(tankTypeName))
      ensures editor ==> tankType == GetTankType(lib, tankTypeName)
      ensures ok ==>
                currentResource == (if old(currentResource) != "" && HoldsResource(tankType.value, old(currentResource))
                                    then old(currentResource) else DefaultResource(tankType.value))
      ensures ok && old(resource).Some? && old(resource) != Some(currentResource) ==> old(resource).value !in part.resources
      ensures OthersKept(old(part.resources), part.resources, currentResource, old(resource))
      ensures ok && old(previousResource) != "" && currentResource !in old(part.resources) ==>
        part.resources[currentResource].amount == 0.0
    {
      if tankType.Some? && resource.Some? && part.resources[resource.value].amount > 0.0 {
        if editor {
          var r := resource.value;
          part.resources := part.resources[r := part.resources[r].(amount := 0.0)];
        } else {
          tankTypeName := tankType.value.name;
          return false;
        }
      }
      ghost var emptied := part.resources;
      assert emptied.Keys == old(part.resources).Keys;
      ok := ResolveAndSwitch(lib, editor, partVolume);
      OthersKeptAfter(old(part.resources), emptied, part.resources, currentResource, old(resource));
    }

    /** The tail of `change_tank_type`, once the tank may change: the type is
        resolved anew from its name and the resource switched. */
    method ResolveAndSwitch(lib: Library, editor: bool, partVolume: real) returns (ok: bool)
      requires Valid() && Loaded(lib)
      modifies this`volume, this`tankTypeName, this`tankType, this`currentResource, this`previousResource,
        this`resourceInfo, this`resource, part
      ensures Valid()
      ensures ok ==> tankType.Some? && tankType == GetTankType(lib, tankTypeName) && tankType.value.name == tankTypeName
      ensures ok ==> resource == Some(currentResource) && HoldsResource(tankType.value, currentResource)
      ensures ok || editor ==>
                tankTypeName == (if old(tankTypeName) == "" then FirstSupported(lib, includes, excludes) else old(tankTypeName))
      ensures editor ==> tankType == GetTankType(lib, tankTypeName)
      ensures ok ==>
                currentResource == (if old(currentResource) != "" && HoldsResource(tankType.value, old(currentResource))
                                    then old(currentResource) else DefaultResource(tankType.value))
      ensures ok && old(resource).Some? && old(resource) != Some(currentResource) ==> old(resource).value !in part.resources
      ensures OthersKept(old(part.resources), part.resources, currentResource, old(resource))
      ensures ok && old(previousResource) != "" && currentResource !in old(part.resources) ==>
        part.resources[currentResource].amount == 0.0
    {
      tankType := None;
      var found := InitTankType(lib, partVolume);
      if !found {
        return false;
      }
      ok := SwitchResource(editor);
    }

    /** `ForceSwitchResource`: switch to `newResource` even when another tank
        type is needed, discarding the current amount. `find` is the library's
        `FindTankType`: a library type that lists the resource. */
    method ForceSwitchResource(newResource: string, lib: Library, find: string -> Option<TankType>,
                               editor: bool, partVolume: real) returns (ok: bool)
      requires Valid() && Loaded(lib)
      requires find(newResource).Some? ==> var t := find(newResource).value;
        t.name != "" && GetTankType(lib, t.name) == Some(t) && HoldsResource(t, newResource)
      modifies this`volume, this`tankTypeName, this`tankType, this`currentResource, this`previousResource,
        this`resourceInfo, this`resource, part
      ensures Valid()
      ensures old(resource) == Some(newResource) ==> ok && unchanged(this) && part.resources == old(part.resources)
      ensures old(resource) != Some(newResource) && old(tankType.None? || !HoldsResource(tankType.value, newResource)) && find(newResource).None? ==>
                !ok && unchanged(this) && part.resources == old(part.resources)
      ensures ok ==> resource == Some(newResource)
      ensures ok && old(resource) != Some(newResource) ==> currentResource == newResource
      ensures ok && old(resource).Some? && old(resource) != Some(newResource) ==> old(resource).value !in part.resources
      ensures ok && old(resource) != Some(newResource) && old(tankType.None? || !HoldsResource(tankType.value, newResource)) ==>
        tankType == find(newResource)
      ensures ok && old(resource) != Some(newResource) && old(previousResource) != "" && newResource !in old(part.resources) ==>
        part.resources[newResource].amount == 0.0
      ensures OthersKept(old(part.resources), part.resources, currentResource, old(resource))
    {
      if resource == Some(newResource) {
        return true;
      }
      if tankType.Some? && HoldsResource(tankType.value, newResource) {
        if resource.Some? {
          var r := resource.value;
          part.resources := part.resources[r := part.resources[r].(amount := 0.0)];
        }
        currentResource := newResource;
        ok := SwitchResource(editor);
        return;
      }
      var newType := find(newResource);
      if newType.None? {
        return false;
      }
      if resource.Some? {
        var r := resource.value;
        part.resources := part.resources[r := part.resources[r].(amount := 0.0)];
      }
      tankTypeName := newType.value.name;
      currentResource := newResource;
      ok := ChangeTankTypeTo(lib, editor, partVolume, newType.value, newResource);
    }

    /** `change_tank_type` as `ForceSwitchResource` reaches it: the tank is
        empty and the new type lists the new current resource. */
    method ChangeTankTypeTo(lib: Library, editor: bool, partVolume: real, t: TankType, res: string) returns (ok: bool)
      requires Valid() && Loaded(lib)
      requires t.name != "" && GetTankType(lib, t.name) == Some(t) && HoldsResource(t, res)
      requires tankTypeName == t.name && currentResource == res
      requires resource.Some? ==> part.resources[resource.value].amount == 0.0
      modifies this`volume, this`tankTypeName, this`tankType, this`currentResource, this`previousResource,
        this`resourceInfo, this`resource, part
      ensures Valid()
      ensures ok ==> resource == Some(res) && currentResource == res && tankType == Some(t)
      ensures ok && old(resource).Some? && old(resource) != Some(res) ==> old(resource).value !in part.resources
      ensures ok && old(previousResource) != "" && res !in old(part.resources) ==> part.resources[res].amount == 0.0
      ensures OthersKept(old(part.resources), part.resources, currentResource, old(resource))
    {
      ok := ChangeTankType(lib, editor, partVolume);
    }

    /** `onTankTypeChange` after the type name was set to `newName`: in the
        editor a different type is set up; in flight the old name is restored. */
    method OnTankTypeChange(newName: string, lib: Library, editor: bool, partVolume: real)
      requires Valid() && Loaded(lib)
      modifies this`volume, this`tankTypeName, this`tankType, this`currentResource, this`previousResource,
        this`resourceInfo, this`resource, part
      ensures Valid()
      ensures !editor ==> tankType == old(tankType) && resource == old(resource) && currentResource == old(currentResource)
      ensures !editor ==> part.resources == old(part.resources)
      ensures !editor ==> tankTypeName == (if old(tankType).Some? then old(tankType).value.name else newName)
      ensures editor && old(tankType).Some? && old(tankType).value.name == newName ==>
        tankTypeName == newName && tankType == old(tankType) && resource == old(resource) && part.resources == old(part.resources)
      ensures editor && (old(tankType).None? || old(tankType).value.name != newName) ==>
        tankType == GetTankType(lib, tankTypeName) && (newName != "" ==> tankTypeName == newName)
      ensures OthersKept(old(part.resources), part.resources, currentResource, old(resource))
    {
      tankTypeName := newName;
      if editor {
        if tankType.None? || tankType.value.name != tankTypeName {
          var changed := ChangeTankType(lib, editor, partVolume);
        }
      } else if tankType.Some? && tankType.value.name != tankTypeName {
        tankTypeName := tankType.value.name;
      }
    }

    /** `ResourcesCost` (q = UnitCost) and `ResourcesMass` (q = Density): the
        managed resource's capacity, or else what the volume would hold of
        the current resource; the initial fraction of it unless `maxAmount`. */
    method ResourcesValue(q: Quantity, maxAmount: bool, lib: Library, partVolume: real) returns (value: real)
      requires Valid() && Loaded(lib)
      modifies this`volume, this`tankTypeName, this`tankType, this`currentResource, this`resourceInfo
      ensures old(resource).Some? ==>
        value == PluggedValue(part.resources[resource.value], q, maxAmount, initialAmount)
      ensures old(resource).Some? ==>
        volume == old(volume) && tankType == old(tankType) && currentResource == old(currentResource)
      ensures old(resource).None? && tankType.None? ==> value == 0.0
      ensures old(resource).None? && tankType.Some? ==>
        value == UnpluggedValue(tankType.value, currentResource, volume, q, maxAmount, initialAmount)
      ensures old(resource).None? && tankType.Some? ==> resourceInfo == ResourceOf(tankType.value, currentResource)
    {
      if resource.Some? {
        return PluggedValue(part.resources[resource.value], q, maxAmount, initialAmount);
      }
      if tankType.None? {
        var found := InitTankType(lib, partVolume);
        if !found {
          return 0.0;
        }
      }
      value := UnpluggedResourcesValue(q, maxAmount);
    }

    /** The unplugged branch of `ResourcesValue`: look the current resource
        up in the type and value what the volume would hold of it. */
    method UnpluggedResourcesValue(q: Quantity, maxAmount: bool) returns (value: real)
      requires tankType.Some?
      modifies this`resourceInfo
      ensures resourceInfo == ResourceOf(tankType.value, currentResource)
      ensures value == UnpluggedValue(tankType.value, currentResource, volume, q, maxAmount, initialAmount)
    {
      var info := ResourceOf(tankType.value, currentResource);
      resourceInfo := info;
      if info.None? {
        return 0.0;
      }
      var full := AmountInVolume(tankType, info, volume) * PerUnit(q, info.value.def);
      value := if maxAmount then full else full * initialAmount;
    }

    method ResourcesCost(maxAmount: bool, lib: Library, partVolume: real) returns (value: real)
      requires Valid() && Loaded(lib)
      modifies this`volume, this`tankTypeName, this`tankType, this`currentResource, this`resourceInfo
      ensures old(resource).Some? ==> value == PluggedValue(part.resources[resource.value], UnitCost, maxAmount, initialAmount)
      ensures old(resource).None? && tankType.Some? ==>
        value == UnpluggedValue(tankType.value, currentResource, volume, UnitCost, maxAmount, initialAmount)
      ensures old(resource).None? && tankType.None? ==> value == 0.0
    {
      value := ResourcesValue(UnitCost, maxAmount, lib, partVolume);
    }

    method ResourcesMass(maxAmount: bool, lib: Library, partVolume: real) returns (value: real)
      requires Valid() && Loaded(lib)
      modifies this`volume, this`tankTypeName, this`tankType, this`currentResource, this`resourceInfo
      ensures old(resource).Some? ==> value == PluggedValue(part.resources[resource.value], Density, maxAmount, initialAmount)
      ensures old(resource).None? && tankType.Some? ==>
        value == UnpluggedValue(tankType.value, currentResource, volume, Density, maxAmount, initialAmount)
      ensures old(resource).None? && tankType.None? ==> value == 0.0
    {
      value := ResourcesValue(Density, maxAmount, lib, partVolume);
    }

    /** `TankCost`: the type's cost of the volume, 0 when no type resolves. */
    method TankCost(lib: Library, partVolume: real) returns (cost: real)
      requires Loaded(lib)
      modifies this`volume, this`tankTypeName, this`tankType, this`currentResource
      ensures tankType.None? ==> cost == 0.0
      ensures tankType.Some? ==> cost == tankType.value.cost(volume)
      ensures old(tankType).Some? ==> unchanged(this)
    {
      if tankType.None? {
        var found := InitTankType(lib, partVolume);
        if !found {
          return 0.0;
        }
      }
      cost := tankType.value.cost(volume);
    }

    /** `TankMass`: the type's additional mass of the volume, 0 when no type resolves. */
    method TankMass(lib: Library, partVolume: real) returns (mass: real)
      requires Loaded(lib)
      modifies this`volume, this`tankTypeName, this`tankType, this`currentResource
      ensures tankType.None? ==> mass == 0.0
      ensures tankType.Some? ==> mass == tankType.value.addMass(volume)
      ensures old(tankType).Some? ==> unchanged(this)
    {
      if tankType.None? {
        var found := InitTankType(lib, partVolume);
        if !found {
          return 0.0;
        }
      }
      mass := tankType.value.addMass(volume);
    }

    /** `OnStart`: register the part's other tanks, resolve the type and plug
        in the resource. */
    method OnStart(others: seq<SwitchableTank>, lib: Library, editor: bool, partVolume: real)
      requires Valid() && Loaded(lib) && TypeHoldsCurrent() && this !in others
      modifies this`otherTanks, this`volume, this`tankTypeName, this`tankType, this`currentResource,
        this`previousResource, this`resourceInfo, this`resource, part
      ensures Valid()
      ensures otherTanks == old(otherTanks) + others
      ensures volume == if old(volume) < 0.0 then partVolume else old(volume)
      ensures old(tankType).None? ==> tankType == GetTankType(lib, tankTypeName)
      ensures old(tankType).None? && old(tankTypeName) != "" ==> tankTypeName == old(tankTypeName)
      ensures resource != old(resource) ==> old(resource).None? && resource == Some(currentResource)
      ensures resource == old(resource) && old(resource).None? ==> part.resources == old(part.resources)
      ensures old(resource).None? && resource.Some? ==>
        forall i :: 0 <= i < |others| ==> old(others[i].ResourceInUse()) != resource.value
      ensures resource.Some? && old(resource).None? ==> forall k :: k in old(part.resources) && k != resource.value ==>
        k in part.resources && part.resources[k] == old(part.resources)[k]
    {
      otherTanks := otherTanks + others;
      var found := InitTankType(lib, partVolume);
      var acquired := AcquireAmong(others, editor);
    }

    /** `InitResource` once `others` ends the registry: a resource acquired
        is managed by none of them. */
    method AcquireAmong(others: seq<SwitchableTank>, editor: bool) returns (acquired: bool)
      requires Valid() && TypeHoldsCurrent() && this !in others
      requires |others| <= |otherTanks| && otherTanks[|otherTanks| - |others|..] == others
      modifies this`currentResource, this`previousResource, this`resourceInfo, this`resource, part
      ensures Valid()
      ensures resource != old(resource) ==> old(resource).None? && resource == Some(currentResource)
      ensures resource == old(resource) && old(resource).None? ==> part.resources == old(part.resources)
      ensures old(resource).None? && resource.Some? ==>
        forall i :: 0 <= i < |others| ==> old(others[i].ResourceInUse()) != resource.value
      ensures resource.Some? && old(resource).None? ==> forall k :: k in old(part.resources) && k != resource.value ==>
        k in part.resources && part.resources[k] == old(part.resources)[k]
    {
      var olds := otherTanks;
      acquired := InitResource(editor);
      assert acquired ==> forall i :: 0 <= i < |others| ==> olds[|olds| - |others| + i] == others[i];
    }
  }
}
