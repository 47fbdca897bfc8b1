/** The library of tank configurations (VolumeConfigsLibrary.cs): the presets
    provided by mods and the configurations saved by the user, each a sorted
    list keyed by configuration name. */
module ConfigsLibrary {
  import opened Util
  import opened SortedLists
  import opened TankTypes
  import opened Volumes

  /** A configuration is stored under its own name. */
  predicate StoredUnderName(k: string, v: Volume)
  {
    v.Configuration? && v.name == k
  }

  ghost predicate NamedEntries(s: SortedList<Volume>)
  {
    Sorted(s) && AllEntries(s, StoredUnderName)
  }

  /** A copy of a configuration under another name. */
  function Renamed(cfg: Volume, name: string): (r: Volume)
    requires cfg.Configuration?
    ensures r.Configuration? && r.name == name && r.volume == cfg.volume && r.volumes == cfg.volumes
    ensures TotalVolume(r.volumes) == TotalVolume(cfg.volumes)
  {
    Configuration(cfg.volume, name, cfg.volumes)
  }

  // ---------------------------------------------------------------------
  // Unique names
  // ---------------------------------------------------------------------

  /** The name `add_unique` settles on: `base` when it is free, otherwise
      "base i" for the least i >= 1 that is free. */
  ghost predicate ChosenName(db: SortedList<Volume>, base: string, name: string)
  {
    && !HasKey(db, name)
    && (|| name == base
        || (&& HasKey(db, base)
            && exists i: nat :: 1 <= i && name == NumberedName(base, i) &&
                 forall j :: 1 <= j < i ==> HasKey(db, NumberedName(base, j))))
  }

  /** The chosen name is determined by the list and the base name. */
  lemma ChosenNameUnique(db: SortedList<Volume>, base: string, n1: string, n2: string)
    requires ChosenName(db, base, n1) && ChosenName(db, base, n2)
    ensures n1 == n2
  {
    if n1 != base && n2 != base {
      var i1: nat :| 1 <= i1 && n1 == NumberedName(base, i1) &&
        forall j :: 1 <= j < i1 ==> HasKey(db, NumberedName(base, j));
      var i2: nat :| 1 <= i2 && n2 == NumberedName(base, i2) &&
        forall j :: 1 <= j < i2 ==> HasKey(db, NumberedName(base, j));
      FirstFreeIsLeast(db, base, i1, i2);
      FirstFreeIsLeast(db, base, i2, i1);
    }
  }

  /** A free numbered name comes no earlier than the first free one. */
  lemma FirstFreeIsLeast(db: SortedList<Volume>, base: string, free: nat, first: nat)
    requires 1 <= free && !HasKey(db, NumberedName(base, free))
    requires forall j :: 1 <= j < first ==> HasKey(db, NumberedName(base, j))
    ensures first <= free
  {
  }

  /** The chosen name extends the base name. */
  lemma ChosenNameExtends(db: SortedList<Volume>, base: string, name: string)
    requires ChosenName(db, base, name)
    ensures |base| <= |name| && name[..|base|] == base
  {
    if name != base {
      var i: nat :| 1 <= i && name == NumberedName(base, i) &&
        forall j :: 1 <= j < i ==> HasKey(db, NumberedName(base, j));
    }
  }

  /** The search in `add_unique`: try `base`, then "base 1", "base 2", ...
      until a name is free. */
  method FreeName(db: SortedList<Volume>, base: string) returns (name: string)
    ensures ChosenName(db, base, name)
  {
    name := base;
    var index: nat := 1;
    while HasKey(db, name)
      invariant index >= 1
      invariant name == if index == 1 then base else NumberedName(base, index - 1)
      invariant index > 1 ==> HasKey(db, base)
      invariant forall j :: 1 <= j < index - 1 ==> HasKey(db, NumberedName(base, j))
      invariant index - 1 <= |db|
      decreases |db| - (index - 1)
    {
      assert forall j :: 1 <= j <= index - 1 ==> HasKey(db, NumberedName(base, j));
      TakenBound(db, base, index - 1);
      name := NumberedName(base, index);
      index := index + 1;
    }
    if index > 1 {
      assert forall j :: 1 <= j < index - 1 ==> HasKey(db, NumberedName(base, j));
      assert name == NumberedName(base, index - 1);
    }
  }

  /** A list holding `base` and "base 1" to "base n" has more than n entries,
      so the search for a free name ends. */
  lemma TakenBound(db: SortedList<Volume>, base: string, n: nat)
    requires HasKey(db, base) && forall j :: 1 <= j <= n ==> HasKey(db, NumberedName(base, j))
    ensures n + 1 <= |db|
  {
    var numbered := set j | 1 <= j <= n :: NumberedName(base, j);
    NumberedNamesCount(base, n);
    assert base !in numbered;
    var taken := numbered + {base};
    assert |taken| == n + 1;
    var keys := set k | k in Keys(db);
    SubsetCard(taken, keys);
    DistinctElements(Keys(db));
  }

  // ---------------------------------------------------------------------
  // Filtering names by tank types
  // ---------------------------------------------------------------------

  /** The names of the configurations that do (`containing`) or do not
      contain one of `tankTypes`, in list order. */
  function NamesWhere(s: SortedList<Volume>, tankTypes: seq<string>, containing: bool): seq<string>
    requires AllEntries(s, StoredUnderName)
  {
    if |s| == 0 then []
    else
      var last := s[|s| - 1].1;
      NamesWhere(s[..|s| - 1], tankTypes, containing) +
        (if ContainsTypes(last, tankTypes) == containing then [last.name] else [])
  }

  /** A name is listed iff it is the key of a configuration that passes the filter. */
  lemma {:induction false} NamesWhereMembership(s: SortedList<Volume>, tankTypes: seq<string>, containing: bool, x: string)
    requires AllEntries(s, StoredUnderName)
    ensures x in NamesWhere(s, tankTypes, containing) <==>
      exists i :: 0 <= i < |s| && s[i].0 == x && ContainsTypes(s[i].1, tankTypes) == containing
  {
    if |s| > 0 {
      var init := s[..|s| - 1];
      assert forall i :: 0 <= i < |init| ==> init[i] == s[i];
      NamesWhereMembership(init, tankTypes, containing, x);
    }
  }

  /** The collecting loop of `AllConfigNames`. */
  method CollectNames(s: SortedList<Volume>, tankTypes: seq<string>, containing: bool) returns (names: seq<string>)
    requires AllEntries(s, StoredUnderName)
    ensures names == NamesWhere(s, tankTypes, containing)
  {
    names := [];
    var i := 0;
    while i < |s|
      invariant 0 <= i <= |s|
      invariant names == NamesWhere(s[..i], tankTypes, containing)
    {
      assert s[..i + 1][..i] == s[..i];
      var cfg := s[i].1;
      if ContainsTypes(cfg, tankTypes) == containing {
        names := names + [cfg.name];
      }
      i := i + 1;
    }
    assert s[..i] == s;
  }

  /** The tank types `AllConfigNames` filters by: a non-empty include list
      becomes the list of all other known tank types. */
  function FilterTypes(lib: Library, includes: seq<string>, excludes: seq<string>): (r: seq<string>)
    ensures |includes| > 0 ==> forall t :: t in r <==> HaveTankType(lib, t) && t !in includes
    ensures |includes| == 0 ==> r == excludes
  {
    if |includes| > 0 then TankTypeNames(lib, [], includes) else excludes
  }

  /** With an include list, a configuration whose tank types are all known
      avoids the filter types exactly when it uses included types only. */
  lemma AvoidsFilterIffIncluded(lib: Library, includes: seq<string>, cfg: Volume)
    requires |includes| > 0
    requires forall t :: t in TypesOf(cfg) ==> HaveTankType(lib, t)
    ensures !ContainsTypes(cfg, FilterTypes(lib, includes, [])) <==> forall t :: t in TypesOf(cfg) ==> t in includes
  {
    var ex := FilterTypes(lib, includes, []);
    ContainsTypesIffTypesOf(cfg, ex);
    if !ContainsTypes(cfg, ex) {
      forall t | t in TypesOf(cfg) ensures t in includes {
        assert t !in TypesOf(cfg) * (set u | u in ex);
        assert t !in ex;
      }
    }
  }

  // ---------------------------------------------------------------------
  // The library
  // ---------------------------------------------------------------------

  /** The names user configurations are loaded under: " [cfg]" is appended
      on a clash with a tank type, then " [usr]" on a clash with a preset. */
  function LoadName(lib: Library, presets: SortedList<Volume>, name: string): (r: string)
    ensures !HaveTankType(lib, name) && !HasKey(presets, name) ==> r == name
    ensures HaveTankType(lib, name) ==> |r| >= |name| + 6 && r[..|name| + 6] == name + " [cfg]"
    ensures !HaveTankType(lib, name) && HasKey(presets, name) ==> r == name + " [usr]"
    ensures HaveTankType(lib, name) ==> r == if HasKey(presets, name + " [cfg]") then name + " [cfg] [usr]" else name + " [cfg]"
  {
    var n := if HaveTankType(lib, name) then name + " [cfg]" else name;
    if HasKey(presets, n) then n + " [usr]" else n
  }

  /** The first valid configuration named `name` among `nodes`. */
  ghost function FirstValidConfig(nodes: seq<Volume>, name: string): Option<Volume>
  {
    if |nodes| == 0 then None
    else
      var f := FirstValidConfig(nodes[..|nodes| - 1], name);
      var last := nodes[|nodes| - 1];
      if f.Some? then f
      else if ValidConfiguration(last) && last.name == name then Some(last)
      else None
  }

  /** The number of valid configurations among `nodes`. */
  function ValidCount(nodes: seq<Volume>): nat
  {
    if |nodes| == 0 then 0
    else ValidCount(nodes[..|nodes| - 1]) + (if ValidConfiguration(nodes[|nodes| - 1]) then 1 else 0)
  }

  /** `name` extends `base`. */
  predicate Extends(name: string, base: string)
  {
    |base| <= |name| && name[..|base|] == base
  }

  /** Some name is chosen: the search of `add_unique` ends. */
  lemma {:induction false} ChosenNameExists(db: SortedList<Volume>, base: string, i: nat)
    requires 1 <= i && HasKey(db, base) && forall j :: 1 <= j < i ==> HasKey(db, NumberedName(base, j))
    ensures exists name :: ChosenName(db, base, name)
    decreases |db| + 1 - i
  {
    if !HasKey(db, NumberedName(base, i)) {
      assert ChosenName(db, base, NumberedName(base, i));
    } else if i > |db| {
      TakenBound(db, base, i);
      assert false;
    } else {
      ChosenNameExists(db, base, i + 1);
    }
  }

  /** The name `add_unique` settles on, as a function. */
  ghost function ChooseName(db: SortedList<Volume>, base: string): (name: string)
    ensures ChosenName(db, base, name)
  {
    if !HasKey(db, base) then base
    else
      ChosenNameExists(db, base, 1);
      var name :| ChosenName(db, base, name); name
  }

  /** What the `UserConfigs` loop builds from `nodes`: each valid node in
      turn, renamed by `LoadName` and then to its chosen unique name, is
      inserted; invalid nodes are skipped. */
  ghost function LoadedUsers(lib: Library, presets: SortedList<Volume>, nodes: seq<Volume>): (db: SortedList<Volume>)
    ensures NamedEntries(db)
    decreases |nodes|
  {
    if |nodes| == 0 then []
    else
      var prev := LoadedUsers(lib, presets, nodes[..|nodes| - 1]);
      var last := nodes[|nodes| - 1];
      if !ValidConfiguration(last) then prev
      else
        var name := ChooseName(prev, LoadName(lib, presets, last.name));
        InsertKeeps(prev, name, Renamed(last, name), StoredUnderName);
        Insert(prev, name, Renamed(last, name))
  }

  /** A lookup after the last fold step: the last node's new key, or what
      the earlier nodes stored. */
  lemma LoadedUsersLast(lib: Library, presets: SortedList<Volume>, nodes: seq<Volume>, x: string)
    requires |nodes| > 0
    ensures var prev := LoadedUsers(lib, presets, nodes[..|nodes| - 1]);
      var last := nodes[|nodes| - 1];
      if ValidConfiguration(last) && x == ChooseName(prev, LoadName(lib, presets, last.name))
      then Get(LoadedUsers(lib, presets, nodes), x) == Some(Renamed(last, x))
        && Extends(x, LoadName(lib, presets, last.name))
      else Get(LoadedUsers(lib, presets, nodes), x) == Get(prev, x)
  {
    var prev := LoadedUsers(lib, presets, nodes[..|nodes| - 1]);
    var last := nodes[|nodes| - 1];
    if ValidConfiguration(last) {
      ChosenNameExtends(prev, LoadName(lib, presets, last.name), ChooseName(prev, LoadName(lib, presets, last.name)));
    }
  }

  /** Every loaded user configuration is a valid node renamed to its key,
      and the key extends the node's `LoadName`. */
  lemma {:induction false} LoadedUsersEntries(lib: Library, presets: SortedList<Volume>, nodes: seq<Volume>, x: string)
    requires HasKey(LoadedUsers(lib, presets, nodes), x)
    ensures exists i ::
      && 0 <= i < |nodes| && ValidConfiguration(nodes[i])
      && Get(LoadedUsers(lib, presets, nodes), x) == Some(Renamed(nodes[i], x))
      && Extends(x, LoadName(lib, presets, nodes[i].name))
    decreases |nodes|
  {
    var n := |nodes| - 1;
    var init := nodes[..n];
    var prev := LoadedUsers(lib, presets, init);
    LoadedUsersLast(lib, presets, nodes, x);
    if ValidConfiguration(nodes[n]) && x == ChooseName(prev, LoadName(lib, presets, nodes[n].name)) {
    } else {
      LoadedUsersEntries(lib, presets, init, x);
      var i :| 0 <= i < |init| && ValidConfiguration(init[i])
        && Get(prev, x) == Some(Renamed(init[i], x)) && Extends(x, LoadName(lib, presets, init[i].name));
      assert nodes[i] == init[i];
    }
  }

  /** Some key of `db` holds `node`, renamed to that key, and the key
      extends `base`. */
  ghost predicate StoredAs(db: SortedList<Volume>, node: Volume, base: string)
  {
    node.Configuration? && exists x :: Get(db, x) == Some(Renamed(node, x)) && Extends(x, base)
  }

  /** Inserting an absent key keeps what is stored. */
  lemma InsertKeepsStored(db: SortedList<Volume>, name: string, v: Volume, node: Volume, base: string)
    requires Sorted(db) && !HasKey(db, name) && StoredAs(db, node, base)
    ensures StoredAs(Insert(db, name, v), node, base)
  {
    var x :| Get(db, x) == Some(Renamed(node, x)) && Extends(x, base);
    assert Get(Insert(db, name, v), x) == Some(Renamed(node, x));
  }

  /** Every valid node is loaded: some key holds it, renamed to that key,
      and the key extends the node's `LoadName`. */
  lemma {:induction false} LoadedUsersComplete(lib: Library, presets: SortedList<Volume>, nodes: seq<Volume>, i: nat)
    requires i < |nodes| && ValidConfiguration(nodes[i])
    ensures StoredAs(LoadedUsers(lib, presets, nodes), nodes[i], LoadName(lib, presets, nodes[i].name))
    decreases |nodes|
  {
    var n := |nodes| - 1;
    var init := nodes[..n];
    var last := nodes[n];
    var prev := LoadedUsers(lib, presets, init);
    if i == n {
      var name := ChooseName(prev, LoadName(lib, presets, last.name));
      ChosenNameExtends(prev, LoadName(lib, presets, last.name), name);
      assert Get(LoadedUsers(lib, presets, nodes), name) == Some(Renamed(last, name));
    } else {
      assert init[i] == nodes[i];
      LoadedUsersComplete(lib, presets, init, i);
      if ValidConfiguration(last) {
        var name := ChooseName(prev, LoadName(lib, presets, last.name));
        InsertKeepsStored(prev, name, Renamed(last, name), nodes[i], LoadName(lib, presets, nodes[i].name));
      }
    }
  }

  class VolumeConfigsLibrary {
    var presets: SortedList<Volume>
    var userConfigs: SortedList<Volume>

    ghost predicate Consistent()
      reads this
    {
      NamedEntries(presets) && NamedEntries(userConfigs)
    }

    constructor ()
      ensures presets == [] && userConfigs == [] && Consistent()
    {
      presets := [];
      userConfigs := [];
    }

    /** The `PresetConfigs` getter's loop: skip invalid configurations and
        keep the first of duplicate names. */
    method LoadPresets(nodes: seq<Volume>)
      requires Consistent()
      modifies this
      ensures Consistent() && userConfigs == old(userConfigs)
      ensures forall name :: Get(presets, name) == FirstValidConfig(nodes, name)
    {
      presets := [];
      var i := 0;
      while i < |nodes|
        invariant 0 <= i <= |nodes| && userConfigs == old(userConfigs)
        invariant Consistent()
        invariant forall name :: Get(presets, name) == FirstValidConfig(nodes[..i], name)
      {
        var cfg := nodes[i];
        var prefix := nodes[..i + 1];
        assert prefix[..i] == nodes[..i] && prefix[i] == cfg;
        if ValidConfiguration(cfg) && !HasKey(presets, cfg.name) {
          InsertKeeps(presets, cfg.name, cfg, StoredUnderName);
          presets := Insert(presets, cfg.name, cfg);
        }
        i := i + 1;
      }
      assert nodes[..i] == nodes;
    }

    /** `add_unique`: store `cfg` under its name, or under "name i" for the
        least free i >= 1 when the name is taken. */
    method AddUnique(cfg: Volume) returns (added: Volume)
      requires Consistent() && cfg.Configuration?
      modifies this
      ensures Consistent() && presets == old(presets) && added.Configuration?
      ensures ChosenName(old(userConfigs), cfg.name, added.name)
      ensures added == Renamed(cfg, added.name)
      ensures userConfigs == Insert(old(userConfigs), added.name, added)
    {
      var name := FreeName(userConfigs, cfg.name);
      added := Renamed(cfg, name);
      InsertKeeps(userConfigs, name, added, StoredUnderName);
      userConfigs := Insert(userConfigs, name, added);
    }

    /** The `UserConfigs` getter's loop: skip invalid configurations, rename
        on clashes with tank types and presets, and add each uniquely. */
    method LoadUserConfigs(lib: Library, nodes: seq<Volume>)
      requires Consistent()
      requires forall i :: 0 <= i < |nodes| ==> nodes[i].Configuration?
      modifies this
      ensures Consistent() && presets == old(presets)
      ensures |userConfigs| == ValidCount(nodes)
      ensures userConfigs == LoadedUsers(lib, presets, nodes)
    {
      userConfigs := [];
      var i := 0;
      while i < |nodes|
        invariant 0 <= i <= |nodes|
        invariant Consistent() && presets == old(presets)
        invariant |userConfigs| == ValidCount(nodes[..i])
        invariant userConfigs == LoadedUsers(lib, presets, nodes[..i])
      {
        var cfg := nodes[i];
        assert nodes[..i + 1][..i] == nodes[..i];
        if ValidConfiguration(cfg) {
          var name := LoadName(lib, presets, cfg.name);
          ghost var prev := userConfigs;
          var added := AddUnique(Renamed(cfg, name));
          ChosenNameUnique(prev, name, added.name, ChooseName(prev, name));
        }
        i := i + 1;
      }
      assert nodes[..i] == nodes;
    }

    /** `AddConfig`: `add_unique` into the user configurations. */
    method AddConfig(cfg: Volume) returns (added: Volume)
      requires Consistent() && cfg.Configuration?
      modifies this
      ensures Consistent() && presets == old(presets) && added.Configuration?
      ensures ChosenName(old(userConfigs), cfg.name, added.name) && added == Renamed(cfg, added.name)
      ensures |userConfigs| == |old(userConfigs)| + 1
      ensures Get(userConfigs, added.name) == Some(added)
      ensures forall x :: x != added.name ==> Get(userConfigs, x) == Get(old(userConfigs), x)
    {
      added := AddUnique(cfg);
    }

    /** `AddOrSave`: map the configuration's name to it, replacing an
        existing entry or adding a new one. */
    method AddOrSave(cfg: Volume)
      requires Consistent() && cfg.Configuration?
      modifies this
      ensures Consistent() && presets == old(presets)
      ensures Get(userConfigs, cfg.name) == Some(cfg)
      ensures forall x :: x != cfg.name ==> Get(userConfigs, x) == Get(old(userConfigs), x)
      ensures |userConfigs| == |old(userConfigs)| + (if HasKey(old(userConfigs), cfg.name) then 0 else 1)
    {
      PutKeeps(userConfigs, cfg.name, cfg, StoredUnderName);
      if HasKey(userConfigs, cfg.name) {
        userConfigs := Put(userConfigs, cfg.name, cfg);
      } else {
        InsertKeeps(userConfigs, cfg.name, cfg, StoredUnderName);
        userConfigs := Insert(userConfigs, cfg.name, cfg);
      }
    }

    /** `RemoveConfig`: false, and nothing changes, when the name is absent. */
    method RemoveConfig(name: string) returns (removed: bool)
      requires Consistent()
      modifies this
      ensures Consistent() && presets == old(presets)
      ensures removed == HasKey(old(userConfigs), name)
      ensures !removed ==> userConfigs == old(userConfigs)
      ensures removed ==> |userConfigs| == |old(userConfigs)| - 1
      ensures !HasKey(userConfigs, name)
      ensures forall x :: x != name ==> Get(userConfigs, x) == Get(old(userConfigs), x)
    {
      removed := HasKey(userConfigs, name);
      RemoveKeeps(userConfigs, name, StoredUnderName);
      userConfigs := Remove(userConfigs, name);
    }

    /** `GetConfig`: nothing for an empty (or null) name; a preset takes
        precedence over a user configuration of the same name. */
    function GetConfig(name: string): (r: Option<Volume>)
      reads this
      ensures r.Some? <==> name != "" && (HasKey(presets, name) || HasKey(userConfigs, name))
      ensures name != "" && HasKey(presets, name) ==> r == Get(presets, name)
      ensures Consistent() && r.Some? ==> r.value.Configuration? && r.value.name == name
    {
      if name == "" then None
      else
        var p := Get(presets, name);
        if p.Some? then
          StoredName(presets, name);
          p
        else
          StoredName(userConfigs, name);
          Get(userConfigs, name)
    }

    /** `HaveUserConfig`. */
    predicate HaveUserConfig(name: string)
      reads this
      ensures HaveUserConfig(name) && name != "" ==> GetConfig(name).Some?
      ensures HaveUserConfig(name) && !HasKey(presets, name) && name != "" ==> GetConfig(name) == Get(userConfigs, name)
    {
      HasKey(userConfigs, name)
    }

    /** `AllConfigNames` as the source writes it: with a filter it lists the
        configurations that DO contain one of the filter types. */
    method AllConfigNamesAsWritten(lib: Library, includes: seq<string>, excludes: seq<string>) returns (names: seq<string>)
      requires Consistent()
      ensures var ex := FilterTypes(lib, includes, excludes);
        && (|ex| > 0 ==> names == NamesWhere(presets, ex, true) + NamesWhere(userConfigs, ex, true))
        && (|ex| == 0 ==> names == Keys(presets) + Keys(userConfigs))
    {
      var ex := FilterTypes(lib, includes, excludes);
      if |ex| > 0 {
        var p := CollectNames(presets, ex, true);
        var u := CollectNames(userConfigs, ex, true);
        names := p + u;
      } else {
        names := Keys(presets) + Keys(userConfigs);
      }
    }

    /** `AllConfigNames` as intended: with a filter it lists the
        configurations that contain none of the filter types. */
    method AllConfigNames(lib: Library, includes: seq<string>, excludes: seq<string>) returns (names: seq<string>)
      requires Consistent()
      ensures var ex := FilterTypes(lib, includes, excludes);
        && (|ex| > 0 ==> names == NamesWhere(presets, ex, false) + NamesWhere(userConfigs, ex, false))
        && (|ex| == 0 ==> names == Keys(presets) + Keys(userConfigs))
    {
      var ex := FilterTypes(lib, includes, excludes);
      if |ex| > 0 {
        var p := CollectNames(presets, ex, false);
        var u := CollectNames(userConfigs, ex, false);
        names := p + u;
      } else {
        names := Keys(presets) + Keys(userConfigs);
      }
    }
  }

  /** In a list of named entries the value found under a name carries it. */
  lemma StoredName(s: SortedList<Volume>, name: string)
    ensures NamedEntries(s) && Get(s, name).Some? ==>
      Get(s, name).value.Configuration? && Get(s, name).value.name == name
  {
    if NamedEntries(s) && Get(s, name).Some? {
      GetAt(s, IndexOf(s, name));
    }
  }

  /** With a filter, the intended `AllConfigNames` lists a name exactly when
      a preset or user configuration of that name contains none of the
      filter types. */
  lemma AllConfigNamesFiltered(presets: SortedList<Volume>, userConfigs: SortedList<Volume>, ex: seq<string>, x: string)
    requires NamedEntries(presets) && NamedEntries(userConfigs)
    ensures x in NamesWhere(presets, ex, false) + NamesWhere(userConfigs, ex, false) <==>
      || (HasKey(presets, x) && !ContainsTypes(Get(presets, x).value, ex))
      || (HasKey(userConfigs, x) && !ContainsTypes(Get(userConfigs, x).value, ex))
  {
    NamesWhereMembership(presets, ex, false, x);
    NamesWhereMembership(userConfigs, ex, false, x);
    KeyedMembership(presets, ex, x);
    KeyedMembership(userConfigs, ex, x);
  }

  lemma KeyedMembership(s: SortedList<Volume>, ex: seq<string>, x: string)
    requires NamedEntries(s)
    ensures (exists i :: 0 <= i < |s| && s[i].0 == x && ContainsTypes(s[i].1, ex) == false) <==>
      HasKey(s, x) && !ContainsTypes(Get(s, x).value, ex)
  {
    if exists i :: 0 <= i < |s| && s[i].0 == x && ContainsTypes(s[i].1, ex) == false {
      var i :| 0 <= i < |s| && s[i].0 == x && ContainsTypes(s[i].1, ex) == false;
      GetAt(s, i);
      assert Keys(s)[i] == x;
    }
    if HasKey(s, x) {
      var i := IndexOf(s, x);
      GetAt(s, i);
    }
  }

  /** Counterexample to the source's filter: excluding tank type "A" still
      lists the preset "C" whose only tank is of type "A". */
  lemma AsWrittenListsExcludedConfig()
    ensures var cfg := Configuration(1.0, "C", [TankVolume(1.0, "A", "R", 0.0)]);
      && ContainsTypes(cfg, ["A"])
      && "C" in NamesWhere([("C", cfg)], ["A"], true)
      && "C" !in NamesWhere([("C", cfg)], ["A"], false)
  {
    var cfg := Configuration(1.0, "C", [TankVolume(1.0, "A", "R", 0.0)]);
    assert ContainsType(cfg.volumes[0], "A");
    assert "A" in ["A"] && ContainsType(cfg, "A");
    var s := [("C", cfg)];
    assert s[..0] == [];
  }
}
