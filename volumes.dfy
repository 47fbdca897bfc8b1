/** Volume configurations (VolumeConfiguration.cs): a tree whose leaves are
    plain volumes and typed tank volumes and whose inner nodes are named
    configurations; the tree's mass, cost and resources are aggregated through
    a volume conversion factor. */
module Volumes {
  import opened Util
  import opened SortedLists
  import opened TankTypes

  /** `BaseVolume`, `TankVolume` and `VolumeConfiguration`. A tank volume
      names its tank type; the type itself is looked up in the tank type
      library passed to the operations. */
  datatype Volume =
    | BaseVolume(volume: real)
    | TankVolume(volume: real, tankType: string, currentResource: string, initialAmount: real)
    | Configuration(volume: real, name: string, volumes: seq<Volume>)

  /** The children's `Volume` fields, in order. */
  function ChildVolumes(vs: seq<Volume>): (r: seq<real>)
    ensures |r| == |vs| && forall i :: 0 <= i < |vs| ==> r[i] == vs[i].volume
  {
    seq(|vs|, i requires 0 <= i < |vs| => vs[i].volume)
  }

  /** `TotalVolume`: the sum of the children's volumes. */
  function TotalVolume(vs: seq<Volume>): real
  {
    Sum(ChildVolumes(vs))
  }

  /** Appending a child adds its volume to the total. */
  lemma TotalVolumeAppend(vs: seq<Volume>, v: Volume)
    ensures TotalVolume(vs + [v]) == TotalVolume(vs) + v.volume
  {
    assert ChildVolumes(vs + [v]) == ChildVolumes(vs) + [v.volume];
    SumAppend(ChildVolumes(vs), [v.volume]);
    SumSingle(v.volume);
  }

  /** `VolumeConfiguration.Valid`. */
  predicate ValidConfiguration(c: Volume)
  {
    c.Configuration? && |c.volumes| > 0 && TotalVolume(c.volumes) > 0.0
  }

  /** A positive sum has a positive term. */
  lemma {:induction false} PositiveSumHasPositiveTerm(xs: seq<real>)
    requires Sum(xs) > 0.0
    ensures exists i :: 0 <= i < |xs| && xs[i] > 0.0
  {
    var n := |xs|;
    if xs[n - 1] <= 0.0 {
      PositiveSumHasPositiveTerm(xs[..n - 1]);
      var i :| 0 <= i < n - 1 && xs[..n - 1][i] > 0.0;
      assert xs[i] > 0.0;
    }
  }

  /** A valid configuration has a child of positive volume, so the
      proportional split of a volume over it is well defined. */
  lemma ValidHasPositiveChild(c: Volume)
    requires ValidConfiguration(c)
    ensures exists i :: 0 <= i < |c.volumes| && c.volumes[i].volume > 0.0
  {
    PositiveSumHasPositiveTerm(ChildVolumes(c.volumes));
  }

  // ---------------------------------------------------------------------
  // Tank types held in a tree
  // ---------------------------------------------------------------------

  /** `ContainsType`: false for a plain volume, name equality for a tank
      volume, and "some child contains it" for a configuration. */
  predicate ContainsType(v: Volume, tankType: string)
    decreases v
  {
    match v
    case BaseVolume(_) => false
    case TankVolume(_, t, _, _) => t == tankType
    case Configuration(_, _, vs) => exists i :: 0 <= i < |vs| && ContainsType(vs[i], tankType)
  }

  /** `ContainsTypes`: the tree contains one of the given types. */
  predicate ContainsTypes(v: Volume, tankTypes: seq<string>)
  {
    exists t :: t in tankTypes && ContainsType(v, t)
  }

  /** The tank types of all tank volumes of the tree, gathered bottom-up. */
  ghost function TypesOf(v: Volume): set<string>
    decreases v
  {
    match v
    case BaseVolume(_) => {}
    case TankVolume(_, t, _, _) => {t}
    case Configuration(_, _, vs) => set i, t | 0 <= i < |vs| && t in TypesOf(vs[i]) :: t
  }

  lemma {:induction false} ContainsTypeIffTypesOf(v: Volume, tankType: string)
    ensures ContainsType(v, tankType) <==> tankType in TypesOf(v)
    decreases v
  {
    if v.Configuration? {
      forall i | 0 <= i < |v.volumes| {
        ContainsTypeIffTypesOf(v.volumes[i], tankType);
      }
      if tankType in TypesOf(v) {
        var i :| 0 <= i < |v.volumes| && tankType in TypesOf(v.volumes[i]);
        assert ContainsType(v.volumes[i], tankType);
      }
    }
  }

  lemma ContainsTypesIffTypesOf(v: Volume, tankTypes: seq<string>)
    ensures ContainsTypes(v, tankTypes) <==> TypesOf(v) * (set t | t in tankTypes) != {}
  {
    forall t | t in tankTypes {
      ContainsTypeIffTypesOf(v, t);
    }
    if ContainsTypes(v, tankTypes) {
      var t :| t in tankTypes && ContainsType(v, t);
      assert t in TypesOf(v) * (set t | t in tankTypes);
    }
    if TypesOf(v) * (set t | t in tankTypes) != {} {
      var t :| t in TypesOf(v) * (set t | t in tankTypes);
      assert t in tankTypes && ContainsType(v, t);
    }
  }

  // ---------------------------------------------------------------------
  // Mass, cost and resources through a volume conversion factor
  // ---------------------------------------------------------------------

  /** The factor a configuration passes to its children: `Volume*conv/TotalVolume`. */
  function ChildConversion(c: Volume, conversion: real): real
    requires c.Configuration?
  {
    Ratio(c.volume * conversion, TotalVolume(c.volumes))
  }

  /** The tank type of a tank volume, when the library has it (`Type`). */
  function TypeOf(lib: Library, v: Volume): Option<TankType>
    requires v.TankVolume?
  {
    Get(lib, v.tankType)
  }

  /** The three resource aggregates differ only in the per-unit factor. */
  datatype Quantity = UnitCost | Density | Units

  function PerUnit(q: Quantity, def: ResourceDef): real
  {
    match q
    case UnitCost => def.unitCost
    case Density => def.density
    case Units => 1.0
  }

  /** What is aggregated: `AddMass`, `Cost`, or one of `ResourceCost`,
      `ResourceMass` and `ResourceAmount` (with their `maxAmount` flag). */
  datatype Measure = AddMassOf | CostOf | ResourcesOf(q: Quantity, maxAmount: bool)

  predicate IsAmount(m: Measure)
  {
    m.ResourcesOf? && m.q == Units
  }

  /** The measure of a tree at a conversion factor. A plain volume measures 0.
      A configuration hands `Volume*conv/TotalVolume` to its children and sums
      their measures; `VolumeConfiguration` does not override
      `ResourceAmount`, so a configuration's amount is the `BaseVolume` one, 0. */
  function Measured(lib: Library, v: Volume, m: Measure, conversion: real): real
    decreases v, 1
  {
    match v
    case BaseVolume(_) => 0.0
    case TankVolume(_, _, _, _) => TankMeasured(lib, v, m, conversion)
    case Configuration(_, _, vs) =>
      if IsAmount(m) then 0.0
      else ChildrenMeasured(lib, vs, m, ChildConversion(v, conversion))
  }

  /** The left-to-right sum of the children's measures (the `Aggregate` fold). */
  function ChildrenMeasured(lib: Library, vs: seq<Volume>, m: Measure, conversion: real): real
    decreases vs, 0
  {
    if |vs| == 0 then 0.0
    else ChildrenMeasured(lib, vs[..|vs| - 1], m, conversion) + Measured(lib, vs[|vs| - 1], m, conversion)
  }

  /** A tank volume's measure. A missing tank type gives 0; for the resource
      aggregates a missing resource does too, as the source's catch-all does. */
  function TankMeasured(lib: Library, v: Volume, m: Measure, conversion: real): real
    requires v.TankVolume?
  {
    match TypeOf(lib, v)
    case None => 0.0
    case Some(t) =>
      match m
      case AddMassOf => t.addMass(v.volume * conversion)
      case CostOf => t.cost(v.volume * conversion)
      case ResourcesOf(q, maxAmount) =>
        match ResourceOf(t, v.currentResource)
        case None => 0.0
        case Some(r) =>
          var full := PerUnit(q, r.def) * r.unitsPerLiter * t.usefulVolume(v.volume) * conversion * 1000.0;
          if maxAmount then full else full * v.initialAmount
  }

  function AddMass(lib: Library, v: Volume, conversion: real): real
  {
    Measured(lib, v, AddMassOf, conversion)
  }

  function Cost(lib: Library, v: Volume, conversion: real): real
  {
    Measured(lib, v, CostOf, conversion)
  }

  function ResourceCost(lib: Library, v: Volume, maxAmount: bool, conversion: real): real
  {
    Measured(lib, v, ResourcesOf(UnitCost, maxAmount), conversion)
  }

  function ResourceMass(lib: Library, v: Volume, maxAmount: bool, conversion: real): real
  {
    Measured(lib, v, ResourcesOf(Density, maxAmount), conversion)
  }

  function ResourceAmount(lib: Library, v: Volume, maxAmount: bool, conversion: real): real
  {
    Measured(lib, v, ResourcesOf(Units, maxAmount), conversion)
  }

  /** The resource aggregates are linear in the conversion factor:
      converting by `k` times a factor yields `k` times the aggregate at that
      factor. (Mass and cost are not: the tank type's `AddMass` and `Cost`
      are arbitrary.) */
  lemma {:induction false} ResourcesLinear(lib: Library, v: Volume, m: Measure, k: real, conversion: real)
    requires m.ResourcesOf?
    ensures Measured(lib, v, m, k * conversion) == k * Measured(lib, v, m, conversion)
    decreases v, 1
  {
    if v.TankVolume? {
      TankResourcesLinear(lib, v, m, k, conversion);
    } else if v.Configuration? && !IsAmount(m) {
      var c := ChildConversion(v, conversion);
      ChildConversionScale(v, k, conversion);
      ChildrenLinear(lib, v.volumes, m, k, c);
      assert ChildConversion(v, k * conversion) == k * c;
      assert ChildrenMeasured(lib, v.volumes, m, ChildConversion(v, k * conversion)) == ChildrenMeasured(lib, v.volumes, m, k * c);
    }
  }

  lemma {:induction false} ChildrenLinear(lib: Library, vs: seq<Volume>, m: Measure, k: real, conversion: real)
    requires m.ResourcesOf?
    ensures ChildrenMeasured(lib, vs, m, k * conversion) == k * ChildrenMeasured(lib, vs, m, conversion)
    decreases vs, 0
  {
    if |vs| > 0 {
      var init, last := vs[..|vs| - 1], vs[|vs| - 1];
      var a, b := ChildrenMeasured(lib, init, m, conversion), Measured(lib, last, m, conversion);
      assert ChildrenMeasured(lib, vs, m, conversion) == a + b;
      assert ChildrenMeasured(lib, vs, m, k * conversion) ==
             ChildrenMeasured(lib, init, m, k * conversion) + Measured(lib, last, m, k * conversion);
      ChildrenLinear(lib, init, m, k, conversion);
      ResourcesLinear(lib, last, m, k, conversion);
      Distribute(k, a, b);
    }
  }

  lemma TankResourcesLinear(lib: Library, v: Volume, m: Measure, k: real, conversion: real)
    requires v.TankVolume? && m.ResourcesOf?
    ensures Measured(lib, v, m, k * conversion) == k * Measured(lib, v, m, conversion)
  {
    var t := TypeOf(lib, v);
    if t.Some? && ResourceOf(t.value, v.currentResource).Some? {
      var r := ResourceOf(t.value, v.currentResource).value;
      var a := PerUnit(m.q, r.def) * r.unitsPerLiter * t.value.usefulVolume(v.volume);
      assert a * (k * conversion) * 1000.0 == k * (a * conversion * 1000.0);
      assert a * (k * conversion) * 1000.0 * v.initialAmount == k * (a * conversion * 1000.0 * v.initialAmount);
    }
  }

  lemma ChildConversionScale(v: Volume, k: real, conversion: real)
    requires v.Configuration?
    ensures ChildConversion(v, k * conversion) == k * ChildConversion(v, conversion)
  {
    var total := TotalVolume(v.volumes);
    if total != 0.0 {
      assert v.volume * (k * conversion) / total == k * (v.volume * conversion / total);
    }
  }

  lemma Distribute(k: real, a: real, b: real)
    ensures k * a + k * b == k * (a + b)
  {
  }

  /** A tank volume's partial resource aggregate is the full one times
      `InitialAmount`, and it is 0 when the type or the resource is missing. */
  lemma TankPartialResources(lib: Library, v: Volume, q: Quantity, conversion: real)
    requires v.TankVolume?
    ensures Measured(lib, v, ResourcesOf(q, false), conversion) ==
            Measured(lib, v, ResourcesOf(q, true), conversion) * v.initialAmount
    ensures TypeOf(lib, v).None? || ResourceOf(TypeOf(lib, v).value, v.currentResource).None? ==>
            Measured(lib, v, ResourcesOf(q, true), conversion) == 0.0 &&
            Measured(lib, v, ResourcesOf(q, false), conversion) == 0.0
  {
  }

  /** Scaling a configuration's `Volume` by `k` has the same effect on every
      measure as scaling the conversion factor by `k`. */
  lemma ConfigurationVolumeScaling(lib: Library, c: Volume, k: real, m: Measure, conversion: real)
    requires c.Configuration?
    ensures Measured(lib, Configuration(k * c.volume, c.name, c.volumes), m, conversion) ==
            Measured(lib, c, m, k * conversion)
  {
    var c' := Configuration(k * c.volume, c.name, c.volumes);
    assert c'.volume * conversion == c.volume * (k * conversion);
    assert ChildConversion(c', conversion) == ChildConversion(c, k * conversion);
  }

  /** Hence scaling a configuration's `Volume` scales its resource aggregates. */
  lemma ConfigurationResourcesScale(lib: Library, c: Volume, k: real, m: Measure, conversion: real)
    requires c.Configuration? && m.ResourcesOf?
    ensures Measured(lib, Configuration(k * c.volume, c.name, c.volumes), m, conversion) == k * Measured(lib, c, m, conversion)
  {
    ConfigurationVolumeScaling(lib, c, k, m, conversion);
    ResourcesLinear(lib, c, m, k, conversion);
  }

  /** A configuration whose `Volume` is its `TotalVolume` measures what its
      children measure at the same conversion factor. */
  lemma ConfigurationAtTotalVolume(lib: Library, c: Volume, m: Measure, conversion: real)
    requires c.Configuration? && c.volume == TotalVolume(c.volumes) && c.volume != 0.0
    requires !IsAmount(m)
    ensures Measured(lib, c, m, conversion) == ChildrenMeasured(lib, c.volumes, m, conversion)
  {
    assert ChildConversion(c, conversion) == conversion;
  }

  // ---------------------------------------------------------------------
  // Building a configuration from a part's resources
  // ---------------------------------------------------------------------

  /** What a part resource contributes: its name, amount and capacity. */
  datatype ResourceState = ResourceState(name: string, amount: real, maxAmount: real)

  /** `TankVolume.FromResource`, given the tank type `FindTankType` returned
      for the resource. A type that does not hold the resource, for which the
      source's indexer throws, also yields None. */
  function FromResource(res: ResourceState, found: Option<TankType>): (r: Option<Volume>)
    ensures r.Some? <==> found.Some? && HoldsResource(found.value, res.name)
    ensures r.Some? ==> var t := found.value; var upl := ResourceOf(t, res.name).value.unitsPerLiter;
      && r.value.TankVolume? && r.value.tankType == t.name && r.value.currentResource == res.name
      && (upl != 0.0 && t.usefulVolumeRatio != 0.0 ==>
            r.value.volume * t.usefulVolumeRatio * upl * 1000.0 == res.maxAmount)
      && (res.maxAmount != 0.0 ==> r.value.initialAmount * res.maxAmount == res.amount)
  {
    match found
    case None => None
    case Some(t) =>
      match ResourceOf(t, res.name)
      case None => None
      case Some(tr) =>
        var vol := Ratio(Ratio(Ratio(res.maxAmount, tr.unitsPerLiter), 1000.0), t.usefulVolumeRatio);
        Some(TankVolume(vol, t.name, res.name, Ratio(res.amount, res.maxAmount)))
  }

  /** Round trip: when the library lists the found type and its useful volume
      is the volume times `UsefulVolumeRatio`, the tank built from a resource
      holds exactly the resource's capacity, and initially its amount. */
  lemma FromResourceRoundTrip(lib: Library, res: ResourceState, t: TankType)
    requires GetTankType(lib, t.name) == Some(t)
    requires HoldsResource(t, res.name) && ResourceOf(t, res.name).value.unitsPerLiter != 0.0
    requires t.usefulVolumeRatio != 0.0
    requires forall x :: t.usefulVolume(x) == x * t.usefulVolumeRatio
    ensures var v := FromResource(res, Some(t)).value;
      && ResourceAmount(lib, v, true, 1.0) == res.maxAmount
      && (res.maxAmount != 0.0 ==> ResourceAmount(lib, v, false, 1.0) == res.amount)
  {
    var v := FromResource(res, Some(t)).value;
    TankAmounts(lib, v, t, res);
  }

  /** A tank volume whose capacity is the resource's: its amount aggregates
      are the resource's capacity and amount. */
  lemma TankAmounts(lib: Library, v: Volume, t: TankType, res: ResourceState)
    requires v.TankVolume? && TypeOf(lib, v) == Some(t) && v.currentResource == res.name
    requires ResourceOf(t, res.name).Some? && forall x :: t.usefulVolume(x) == x * t.usefulVolumeRatio
    requires v.volume * t.usefulVolumeRatio * ResourceOf(t, res.name).value.unitsPerLiter * 1000.0 == res.maxAmount
    requires res.maxAmount != 0.0 ==> v.initialAmount * res.maxAmount == res.amount
    ensures ResourceAmount(lib, v, true, 1.0) == res.maxAmount
    ensures res.maxAmount != 0.0 ==> ResourceAmount(lib, v, false, 1.0) == res.amount
  {
    var r := ResourceOf(t, res.name).value;
    var useful := t.usefulVolume(v.volume);
    var full := PerUnit(Units, r.def) * r.unitsPerLiter * useful * 1.0 * 1000.0;
    assert ResourceAmount(lib, v, true, 1.0) == full;
    assert ResourceAmount(lib, v, false, 1.0) == full * v.initialAmount;
    CapacityOfUnits(r.unitsPerLiter, v.volume, t.usefulVolumeRatio, useful, full);
  }

  lemma CapacityOfUnits(upl: real, volume: real, ratio: real, useful: real, full: real)
    requires useful == volume * ratio && full == 1.0 * upl * useful * 1.0 * 1000.0
    ensures full == volume * ratio * upl * 1000.0
  {
  }

  /** `VolumeConfiguration.FromResources`: one tank volume per resource, or
      None as soon as one resource has no tank type; the result's `Volume`
      is its `TotalVolume`. */
  method FromResources(resources: seq<ResourceState>, find: string -> Option<TankType>) returns (r: Option<Volume>)
    ensures r.Some? <==> forall i :: 0 <= i < |resources| ==> FromResource(resources[i], find(resources[i].name)).Some?
    ensures r.Some? ==>
      && r.value.Configuration? && r.value.name == ""
      && r.value.volume == TotalVolume(r.value.volumes)
      && |r.value.volumes| == |resources|
      && forall i :: 0 <= i < |resources| ==> Some(r.value.volumes[i]) == FromResource(resources[i], find(resources[i].name))
  {
    var volumes: seq<Volume> := [];
    var i := 0;
    while i < |resources|
      invariant 0 <= i <= |resources| && |volumes| == i
      invariant forall j :: 0 <= j < i ==> Some(volumes[j]) == FromResource(resources[j], find(resources[j].name))
    {
      var tank := FromResource(resources[i], find(resources[i].name));
      if tank.None? {
        return None;
      }
      volumes := volumes + [tank.value];
      i := i + 1;
    }
    r := Some(Configuration(TotalVolume(volumes), "", volumes));
  }

  // ---------------------------------------------------------------------
  // Loading a configuration node (with preset expansion)
  // ---------------------------------------------------------------------

  /** A child node of a TANKCONF node as the loader sees it: a TANK node (with
      its `name` value, the parsed `Volume` value if it parses, and the tank
      fields), a nested TANKCONF node, or a node of another kind. Fields that
      are absent keep their defaults: a `Volume` of 1 and an empty name. */
  datatype VolumeNode =
    | TankNode(name: string, volumeValue: Option<real>, tankType: string, currentResource: string, initialAmount: real)
    | ConfigurationNode(name: string, volumeValue: Option<real>, children: seq<VolumeNode>)
    | OtherNode

  /** A copy of `v` whose `Volume` is `x` (`Clone` and assignment). */
  function WithVolume(v: Volume, x: real): (r: Volume)
    ensures r.volume == x
    ensures v.Configuration? ==> r.Configuration? && r.name == v.name && r.volumes == v.volumes
    ensures v.TankVolume? ==> r.TankVolume? && r.tankType == v.tankType && r.currentResource == v.currentResource
    ensures v.BaseVolume? ==> r.BaseVolume?
  {
    match v
    case BaseVolume(_) => BaseVolume(x)
    case TankVolume(_, t, res, init) => TankVolume(x, t, res, init)
    case Configuration(_, n, vs) => Configuration(x, n, vs)
  }

  /** The volume a node loads into; `preset` is `VolumeConfigsLibrary.GetConfig`.
      A TANK node naming a preset becomes a copy of the preset whose `Volume`
      is the node's value, or 100 when that does not parse. */
  function LoadedVolume(node: VolumeNode, preset: string -> Option<Volume>): Option<Volume>
    decreases node
  {
    match node
    case TankNode(name, vol, t, res, init) =>
      (match preset(name)
       case Some(p) => Some(WithVolume(p, vol.GetOr(100.0)))
       case None => Some(TankVolume(vol.GetOr(1.0), t, res, init)))
    case ConfigurationNode(name, vol, cs) =>
      var entries := seq(|cs|, i requires 0 <= i < |cs| => LoadedVolume(cs[i], preset));
      Some(Configuration(vol.GetOr(1.0), name, Compact(entries)))
    case OtherNode => None
  }

  /** The present values, in order. */
  function Compact(xs: seq<Option<Volume>>): (r: seq<Volume>)
    ensures |r| <= |xs|
  {
    if |xs| == 0 then []
    else Compact(xs[..|xs| - 1]) + (if xs[|xs| - 1].Some? then [xs[|xs| - 1].value] else [])
  }

  /** The number of TANK and TANKCONF nodes. */
  function VolumeNodeCount(cs: seq<VolumeNode>): nat
  {
    if |cs| == 0 then 0
    else VolumeNodeCount(cs[..|cs| - 1]) + (if cs[|cs| - 1].OtherNode? then 0 else 1)
  }

  lemma {:induction false} CompactCount(cs: seq<VolumeNode>, entries: seq<Option<Volume>>)
    requires |entries| == |cs| && forall i :: 0 <= i < |cs| ==> (entries[i].Some? <==> !cs[i].OtherNode?)
    ensures |Compact(entries)| == VolumeNodeCount(cs)
  {
    var n := |cs|;
    if n > 0 {
      CompactCount(cs[..n - 1], entries[..n - 1]);
    }
  }

  /** Only nodes of another kind are dropped: every TANK and TANKCONF node
      loads into one child of the configuration. */
  lemma LoadedChildren(node: VolumeNode, preset: string -> Option<Volume>)
    requires node.ConfigurationNode?
    ensures |LoadedVolume(node, preset).value.volumes| == VolumeNodeCount(node.children)
  {
    var cs := node.children;
    var entries := seq(|cs|, i requires 0 <= i < |cs| => LoadedVolume(cs[i], preset));
    CompactCount(cs, entries);
  }

  /** A TANK node naming a preset loads into the preset's tree, name and
      types, with the node's volume or 100. */
  lemma LoadedPreset(node: VolumeNode, preset: string -> Option<Volume>, tankType: string)
    requires node.TankNode? && preset(node.name).Some?
    ensures var p := preset(node.name).value; var v := LoadedVolume(node, preset).value;
      && v.volume == (if node.volumeValue.Some? then node.volumeValue.value else 100.0)
      && (p.Configuration? ==> v.Configuration? && v.name == p.name && v.volumes == p.volumes)
      && (ContainsType(v, tankType) <==> ContainsType(p, tankType))
  {
  }

  /** `VolumeConfiguration.Load` for a TANKCONF node: the loop over the child
      nodes, recursing into nested TANKCONF nodes. */
  method LoadConfiguration(node: VolumeNode, preset: string -> Option<Volume>) returns (c: Volume)
    requires node.ConfigurationNode?
    ensures Some(c) == LoadedVolume(node, preset)
    decreases node
  {
    var cs := node.children;
    ghost var entries := seq(|cs|, i requires 0 <= i < |cs| => LoadedVolume(cs[i], preset));
    var volumes: seq<Volume> := [];
    var i := 0;
    while i < |cs|
      invariant 0 <= i <= |cs|
      invariant volumes == Compact(entries[..i])
    {
      var v := cs[i];
      assert entries[..i + 1][..i] == entries[..i];
      match v {
        case TankNode(name, vol, t, res, init) =>
          var p := preset(name);
          if p.Some? {
            volumes := volumes + [WithVolume(p.value, vol.GetOr(100.0))];
          } else {
            volumes := volumes + [TankVolume(vol.GetOr(1.0), t, res, init)];
          }
        case ConfigurationNode(_, _, _) =>
          var sub := LoadConfiguration(v, preset);
          volumes := volumes + [sub];
        case OtherNode =>
      }
      i := i + 1;
    }
    assert entries[..i] == entries;
    c := Configuration(node.volumeValue.GetOr(1.0), node.name, volumes);
  }
}
