/** Tank types (SwitchableTankType.cs): named templates listing the
    resources a tank may hold, and the sorted library they are loaded into. */
module TankTypes {
  import opened Util
  import opened SortedLists

  /** The part-resource definition a tank resource refers to. */
  datatype ResourceDef = ResourceDef(unitCost: real, density: real)

  /** `TankResource`: a resource definition with its units per liter and per
      cubic meter of useful volume. Its name is the key it is listed under. */
  datatype TankResource = TankResource(def: ResourceDef, unitsPerLiter: real, unitsPerVolume: real)

  /** `SwitchableTankType`. `resources` is `None` when the resource list
      could not be parsed. The members `UsefulVolume`, `GetEffectiveVolumeRatio`,
      `Cost` and `AddMass` are defined outside this model and enter it as
      given functions and values. */
  datatype TankType = TankType(
    name: string,
    resources: Option<SortedList<TankResource>>,
    usefulVolumeRatio: real,
    usefulVolume: real -> real,
    effectiveVolumeRatio: real,
    cost: real -> real,
    addMass: real -> real)

  /** `Valid`: the resource list is present and not empty. */
  predicate Valid(t: TankType)
  {
    t.resources.Some? && |t.resources.value| > 0
  }

  /** The resource list, empty when absent. */
  function Resources(t: TankType): SortedList<TankResource>
  {
    t.resources.GetOr([])
  }

  predicate HoldsResource(t: TankType, name: string)
  {
    HasKey(Resources(t), name)
  }

  /** The name of `DefaultResource`: the first resource in sorted order. */
  function DefaultResource(t: TankType): (r: string)
    requires Valid(t)
    ensures HoldsResource(t, r)
    ensures Sorted(Resources(t)) ==> forall k :: HoldsResource(t, k) && k != r ==> Less(r, k)
  {
    assert Keys(Resources(t))[0] == Resources(t)[0].0;
    Resources(t)[0].0
  }

  /** The indexer `this[name]`: the tank resource, or null (None) when the list
      is absent or does not hold the name. */
  function ResourceOf(t: TankType, name: string): (r: Option<TankResource>)
    ensures r.Some? <==> t.resources.Some? && HasKey(t.resources.value, name)
  {
    if t.resources.None? then None else Get(t.resources.value, name)
  }

  // ---------------------------------------------------------------------
  // The library of tank types
  // ---------------------------------------------------------------------

  type Library = SortedList<TankType>

  /** What loading guarantees of the library: sorted, every type valid and
      listed under its own name, every resource list sorted. */
  ghost predicate Loaded(lib: Library)
  {
    && Sorted(lib)
    && forall i :: 0 <= i < |lib| ==>
         Valid(lib[i].1) && lib[i].1.name == lib[i].0 && Sorted(Resources(lib[i].1))
  }

  /** `HaveTankType`. */
  predicate HaveTankType(lib: Library, name: string)
  {
    HasKey(lib, name)
  }

  /** `GetTankType`: the named type, or null (None) when it is missing. */
  function GetTankType(lib: Library, name: string): (r: Option<TankType>)
    ensures r.Some? <==> HaveTankType(lib, name)
    ensures Loaded(lib) && r.Some? ==> r.value.name == name && Valid(r.value) && Sorted(Resources(r.value))
  {
    LoadedGet(lib, name);
    Get(lib, name)
  }

  lemma LoadedGet(lib: Library, name: string)
    ensures Loaded(lib) && HasKey(lib, name) ==>
      var t := Get(lib, name).value; t.name == name && Valid(t) && Sorted(Resources(t))
  {
    if Loaded(lib) && HasKey(lib, name) {
      GetAt(lib, IndexOf(lib, name));
    }
  }

  ghost predicate StrictlyIncreasing(xs: seq<string>)
  {
    forall i, j :: 0 <= i < j < |xs| ==> Less(xs[i], xs[j])
  }

  lemma KeysIncreasing<V>(s: SortedList<V>)
    ensures Sorted(s) ==> StrictlyIncreasing(Keys(s))
  {
  }

  /** The names that are also in `includes`, in their original order. */
  function KeepIncluded(names: seq<string>, includes: seq<string>): (r: seq<string>)
    ensures forall x :: x in r <==> x in names && x in includes
    ensures StrictlyIncreasing(names) ==> StrictlyIncreasing(r)
    ensures forall x :: x in r ==> exists i :: 0 <= i < |names| && names[i] == x
    decreases |names|
  {
    if |names| == 0 then []
    else
      var rest := KeepIncluded(names[1..], includes);
      assert forall x :: x in rest ==> x in names[1..];
      if names[0] in includes then
        OrderedCons(names, rest);
        [names[0]] + rest
      else
        rest
  }

  /** The names not in `excludes`, in their original order. */
  function DropExcluded(names: seq<string>, excludes: seq<string>): (r: seq<string>)
    ensures forall x :: x in r <==> x in names && x !in excludes
    ensures StrictlyIncreasing(names) ==> StrictlyIncreasing(r)
    decreases |names|
  {
    if |names| == 0 then []
    else
      var rest := DropExcluded(names[1..], excludes);
      if names[0] !in excludes then
        OrderedCons(names, rest);
        [names[0]] + rest
      else
        rest
  }

  /** Putting the first name before a sorted selection of the others keeps it sorted. */
  lemma OrderedCons(names: seq<string>, rest: seq<string>)
    requires |names| > 0 && forall x :: x in rest ==> x in names[1..]
    ensures StrictlyIncreasing(names) && StrictlyIncreasing(rest) ==> StrictlyIncreasing([names[0]] + rest)
  {
    if StrictlyIncreasing(names) && StrictlyIncreasing(rest) {
      var r := [names[0]] + rest;
      forall i, j | 0 <= i < j < |r| ensures Less(r[i], r[j]) {
        if i == 0 {
          assert r[j] in names[1..];
          var m :| 0 <= m < |names| - 1 && names[1..][m] == r[j];
          assert names[m + 1] == r[j];
        } else {
          assert r[i] == rest[i - 1] && r[j] == rest[j - 1];
        }
      }
    }
  }

  /** `TankTypeNames(includes, excludes)`: a non-empty includes list keeps exactly
      the included names, otherwise a non-empty excludes list drops the excluded
      ones, otherwise all names; always in library order. */
  function TankTypeNames(lib: Library, includes: seq<string>, excludes: seq<string>): (r: seq<string>)
    ensures |includes| > 0 ==> forall x :: x in r <==> HaveTankType(lib, x) && x in includes
    ensures |includes| == 0 && |excludes| > 0 ==> forall x :: x in r <==> HaveTankType(lib, x) && x !in excludes
    ensures |includes| == 0 && |excludes| == 0 ==> r == Keys(lib)
    ensures Sorted(lib) ==> StrictlyIncreasing(r)
  {
    KeysIncreasing(lib);
    if |includes| > 0 then KeepIncluded(Keys(lib), includes)
    else if |excludes| > 0 then DropExcluded(Keys(lib), excludes)
    else Keys(lib)
  }

  // ---------------------------------------------------------------------
  // Loading the library (the `TankTypes` getter)
  // ---------------------------------------------------------------------

  /** The first valid node carrying `name` among `nodes`. */
  ghost function FirstValid(nodes: seq<TankType>, name: string): Option<TankType>
  {
    if |nodes| == 0 then None
    else
      var f := FirstValid(nodes[..|nodes| - 1], name);
      var last := nodes[|nodes| - 1];
      if f.Some? then f
      else if Valid(last) && last.name == name then Some(last)
      else None
  }

  /** The library holds a name exactly when some valid node carries it, and
      then it holds the first such node: invalid nodes are skipped and later
      duplicates are ignored. */
  lemma {:induction false} FirstValidIsFirst(nodes: seq<TankType>, name: string)
    ensures FirstValid(nodes, name).Some? <==>
      exists i :: 0 <= i < |nodes| && Valid(nodes[i]) && nodes[i].name == name
    ensures forall i :: 0 <= i < |nodes| && Valid(nodes[i]) && nodes[i].name == name ==>
      (forall j :: 0 <= j < i ==> !(Valid(nodes[j]) && nodes[j].name == name)) ==>
        FirstValid(nodes, name) == Some(nodes[i])
  {
    if |nodes| > 0 {
      var init := nodes[..|nodes| - 1];
      FirstValidIsFirst(init, name);
      assert forall i :: 0 <= i < |init| ==> init[i] == nodes[i];
      if FirstValid(init, name).None? {
        assert forall i :: 0 <= i < |init| ==> !(Valid(nodes[i]) && nodes[i].name == name);
      } else {
        var i :| 0 <= i < |init| && Valid(init[i]) && init[i].name == name;
        assert Valid(nodes[i]) && nodes[i].name == name;
      }
    }
  }

  /** The `TankTypes` getter's loop: parse every TANKTYPE node (given here as
      parsed types), skip the invalid ones, keep the first of duplicate names. */
  method LoadTankTypes(nodes: seq<TankType>) returns (lib: Library)
    requires forall i :: 0 <= i < |nodes| ==> Sorted(Resources(nodes[i]))
    ensures Loaded(lib)
    ensures forall name :: GetTankType(lib, name) == FirstValid(nodes, name)
  {
    lib := [];
    var i := 0;
    while i < |nodes|
      invariant 0 <= i <= |nodes|
      invariant Loaded(lib)
      invariant forall name :: GetTankType(lib, name) == FirstValid(nodes[..i], name)
    {
      var t := nodes[i];
      assert nodes[..i + 1] == nodes[..i] + [t];
      LoadStep(lib, nodes[..i], t);
      if Valid(t) && !HasKey(lib, t.name) {
        lib := Insert(lib, t.name, t);
      }
      i := i + 1;
    }
    assert nodes[..i] == nodes;
  }

  /** One step of the loading loop keeps the loop's invariant. */
  lemma LoadStep(lib: Library, prefix: seq<TankType>, t: TankType)
    requires Loaded(lib) && Sorted(Resources(t))
    requires forall name :: GetTankType(lib, name) == FirstValid(prefix, name)
    ensures Valid(t) && !HasKey(lib, t.name) ==>
      Loaded(Insert(lib, t.name, t)) &&
      forall name :: GetTankType(Insert(lib, t.name, t), name) == FirstValid(prefix + [t], name)
    ensures !(Valid(t) && !HasKey(lib, t.name)) ==>
      forall name :: GetTankType(lib, name) == FirstValid(prefix + [t], name)
  {
    var p := prefix + [t];
    assert p[..|p| - 1] == prefix && p[|p| - 1] == t;
    if Valid(t) && !HasKey(lib, t.name) {
      LoadedInsert(lib, t);
    }
  }

  lemma LoadedInsert(lib: Library, t: TankType)
    requires Loaded(lib) && Valid(t) && Sorted(Resources(t)) && !HasKey(lib, t.name)
    ensures Loaded(Insert(lib, t.name, t))
  {
    var r := Insert(lib, t.name, t);
    forall i | 0 <= i < |r| ensures Valid(r[i].1) && r[i].1.name == r[i].0 && Sorted(Resources(r[i].1)) {
      GetAt(r, i);
      assert Keys(r)[i] == r[i].0;
      if r[i].0 != t.name {
        var j := IndexOf(lib, r[i].0);
        GetAt(lib, j);
      }
    }
  }
}
