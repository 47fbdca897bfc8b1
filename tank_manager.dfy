/** The tank manager (SwitchableTankManager.cs): the switchable tanks of a
    part under a shared total volume. The volume the tanks use, the volume
    still free and the free fraction are cached lazily; a negative cache
    means "not computed". Tanks get strictly increasing ids, every tank is
    registered with all the others, and no two tanks manage the same
    resource. The capability flag `AddRemoveEnabled`, the validators of a
    new tank, the scene and the part's volume are inputs. */
module TankManagers {
  import opened Util
  import opened TankTypes
  import opened Volumes
  import opened SwitchableTanks
  import opened ConfigsLibrary

  /** The tanks' `Volume`s, in order. */
  function VolumesOf(ts: seq<SwitchableTank>): (r: seq<real>)
    reads ts
    ensures |r| == |ts| && forall i :: 0 <= i < |ts| ==> r[i] == ts[i].volume
  {
    seq(|ts|, i reads ts requires 0 <= i < |ts| => ts[i].volume)
  }

  /** The position of the first tank with the given id (`tanks.Find`). */
  function IndexOfId(ts: seq<SwitchableTank>, id: int): (r: Option<nat>)
    ensures r.Some? ==> r.value < |ts| && ts[r.value].id == id && forall j :: 0 <= j < r.value ==> ts[j].id != id
    ensures r.None? ==> forall j :: 0 <= j < |ts| ==> ts[j].id != id
  {
    if |ts| == 0 then None
    else if ts[0].id == id then Some(0)
    else match IndexOfId(ts[1..], id)
      case None => None
      case Some(k) => Some(k + 1)
  }

  /** Every validator accepts the new tank (an empty message is no error). */
  predicate Accepted(validators: seq<(string, real) -> string>, tankType: string, volume: real)
  {
    forall i :: 0 <= i < |validators| ==> validators[i](tankType, volume) == ""
  }

  /** The free fraction is in [0, 1] while the tanks fit a positive volume. */
  lemma FreeFractionBounds(total: real, used: real)
    requires total > 0.0 && 0.0 <= used <= total
    ensures 0.0 <= Ratio(total - used, total) <= 1.0
  {
    var r := Ratio(total - used, total);
    assert r * total == total - used;
  }

  // ---------------------------------------------------------------------
  // Splitting a volume over a configuration
  // ---------------------------------------------------------------------

  /** The volume `AddConfiguration` gives a child: `volume * v.Volume / V`. */
  function Share(volume: real, childVolume: real, total: real): real
    requires total != 0.0
  {
    volume * childVolume / total
  }

  /** The shares of all children of a configuration. */
  function Shares(volume: real, vs: seq<Volume>): (r: seq<real>)
    requires TotalVolume(vs) != 0.0
    ensures |r| == |vs| && forall i :: 0 <= i < |vs| ==> r[i] == Share(volume, vs[i].volume, TotalVolume(vs))
  {
    seq(|vs|, i requires 0 <= i < |vs| => Share(volume, vs[i].volume, TotalVolume(vs)))
  }

  /** The children's shares add up to the whole volume. */
  lemma SharesSum(volume: real, vs: seq<Volume>)
    requires TotalVolume(vs) != 0.0
    ensures Sum(Shares(volume, vs)) == volume
  {
    var total := TotalVolume(vs);
    var k := volume / total;
    var shares, scaled := Shares(volume, vs), ScaleAll(ChildVolumes(vs), k);
    forall i | 0 <= i < |vs|
      ensures shares[i] == scaled[i]
    {
      ShareIsScaled(volume, vs[i].volume, total);
    }
    SameElements(shares, scaled);
    SumScaleAll(ChildVolumes(vs), k);
    ShareOfTotal(volume, total);
  }

  lemma ShareIsScaled(volume: real, x: real, total: real)
    requires total != 0.0
    ensures Share(volume, x, total) == x * (volume / total)
  {
  }

  lemma ShareOfTotal(volume: real, total: real)
    requires total != 0.0
    ensures total * (volume / total) == volume
  {
  }

  // ---------------------------------------------------------------------
  // Rescaling the tanks
  // ---------------------------------------------------------------------

  /** No volume is negative. */
  predicate NonNegative(xs: seq<real>)
  {
    forall i :: 0 <= i < |xs| ==> 0.0 <= xs[i]
  }

  /** The volumes `RescaleTanks` leaves once its first `k` tanks are done:
      those are scaled by `s` and floored at zero, the rest are untouched. */
  function ScaledUpTo(vols: seq<real>, k: nat, s: real): (r: seq<real>)
    ensures |r| == |vols|
    ensures forall i :: 0 <= i < |vols| ==> r[i] == ScaledEntry(vols[i], i < k, s)
  {
    seq(|vols|, i requires 0 <= i < |vols| => ScaledEntry(vols[i], i < k, s))
  }

  /** One tank's volume, scaled by `s` and floored at zero once `done`. */
  function ScaledEntry(x: real, done: bool, s: real): real
  {
    if done then Max(x * s, 0.0) else x
  }

  /** One step of the rescaling: tank `k`, still at its old volume `x`,
      asks for `v`, `x` times the factor, and gets it floored at zero. */
  lemma ScaledUpToStep(vols: seq<real>, k: nat, s: real, x: real, v: real, next: seq<real>)
    requires k < |vols| && x == ScaledUpTo(vols, k, s)[k] && v == x * s
    requires next == ScaledUpTo(vols, k, s)[k := Max(v, 0.0)]
    ensures next == ScaledUpTo(vols, k + 1, s)
  {
    var after := ScaledUpTo(vols, k + 1, s);
    forall i | 0 <= i < |vols|
      ensures next[i] == after[i]
    {
      if i == k {
        assert x == vols[k];
        assert after[k] == Max(x * s, 0.0);
      }
    }
    SameElements(next, after);
  }

  /** Volumes that are not negative, rescaled one by one and floored at
      zero, are the scaled volumes, and their sum scales with them. */
  lemma ScaledAll(vols: seq<real>, s: real)
    requires s > 0.0 && NonNegative(vols)
    ensures ScaledUpTo(vols, |vols|, s) == ScaleAll(vols, s)
    ensures Sum(ScaledUpTo(vols, |vols|, s)) == Sum(vols) * s
  {
    forall i | 0 <= i < |vols|
      ensures ScaledUpTo(vols, |vols|, s)[i] == ScaleAll(vols, s)[i]
    {
      MulNonNegative(vols[i], s);
      MaxOfNonNegative(vols[i] * s);
    }
    SameElements(ScaledUpTo(vols, |vols|, s), ScaleAll(vols, s));
    SumScaleAll(vols, s);
  }

  /** The tank volumes `RescaleTanks` leaves as written, from tank `k` on:
      each tank's request for `s` times its volume goes through the manager's
      clamp, so it may only grow into the volume still free at that moment. */
  function RescaledFrom(vols: seq<real>, k: nat, total: real, s: real): (r: seq<real>)
    requires k <= |vols|
    ensures |r| == |vols|
    decreases |vols| - k
  {
    if k == |vols| then vols
    else RescaledFrom(vols[k := NewTankVolume(vols[k], vols[k] * s, Some(total - Sum(vols)))], k + 1, total, s)
  }

  /** One step of the clamped rescaling: tank `k` asks for `v`, its volume
      times the factor, with `free` still available. */
  lemma RescaledStep(vols: seq<real>, k: nat, total: real, s: real, x: real, v: real, free: real, next: seq<real>)
    requires k < |vols| && x == vols[k] && v == x * s && free == total - Sum(vols)
    requires next == vols[k := NewTankVolume(x, v, Some(free))]
    ensures RescaledFrom(vols, k, total, s) == RescaledFrom(next, k + 1, total, s)
  {
    RescaledUnfold(vols, k, total, s);
  }

  lemma RescaledUnfold(vols: seq<real>, k: nat, total: real, s: real)
    requires k < |vols|
    ensures RescaledFrom(vols, k, total, s)
         == RescaledFrom(vols[k := NewTankVolume(vols[k], vols[k] * s, Some(total - Sum(vols)))], k + 1, total, s)
  {
  }

  /** Past the last tank the rescaling leaves the volumes as they are. */
  lemma RescaledDone(vols: seq<real>, k: nat, total: real, s: real)
    requires k == |vols|
    ensures RescaledFrom(vols, k, total, s) == vols
  {
  }

  /** The clamped rescaling never lets the tanks outgrow the old total
      volume, whatever the factor. */
  lemma {:induction false} RescaledWithinTotal(vols: seq<real>, k: nat, total: real, s: real)
    requires k <= |vols| && Sum(vols) <= total
    ensures Sum(RescaledFrom(vols, k, total, s)) <= total
    decreases |vols| - k
  {
    if k < |vols| {
      var next := vols[k := NewTankVolume(vols[k], vols[k] * s, Some(total - Sum(vols)))];
      SumUpdate(vols, k, next[k]);
      RescaledWithinTotal(next, k + 1, total, s);
    }
  }

  /** A full tank cannot grow: one tank filling a volume of 10 and a scale
      of 2 leave the tank at 10 instead of 20. */
  lemma RescaleAsWrittenCounterexample()
    ensures RescaledFrom([10.0], 0, 10.0, 2.0) == [10.0]
    ensures ScaleAll([10.0], 2.0) == [20.0]
  {
    SumSingle(10.0);
    assert [10.0][0 := NewTankVolume(10.0, 20.0, Some(0.0))] == [10.0];
  }

  /** The free fraction as `AvailableVolumePercent` returns it and as it is
      meant: on a manager of volume 10 whose tanks use 5, the getter as
      written yields 5 where the free fraction is 0.5. */
  method AvailablePercentCounterexample(m: SwitchableTankManager) returns (asWritten: real, meant: real)
    requires m.CachesValid() && m.volume == 10.0 && m.Used() == 5.0
    modifies m`tanksVolume, m`availableVolume, m`availableVolumePercent
    ensures asWritten == 5.0 && meant == 0.5
  {
    asWritten := m.AvailableVolumePercentAsWritten();
    meant := m.AvailableVolumePercent();
  }

  // ---------------------------------------------------------------------
  // The invariants of a tank list
  // ---------------------------------------------------------------------

  /** The tanks are modules of part `p` and each is consistent. */
  ghost predicate AllValid(ts: seq<SwitchableTank>, p: Part)
    reads ts`resource, ts`otherTanks, p
  {
    forall i :: 0 <= i < |ts| ==> ts[i].part == p && ts[i].Valid()
  }

  /** `pos` gives every tank its position, so no tank occurs twice. */
  ghost predicate Indexed(ts: seq<SwitchableTank>, pos: map<SwitchableTank, nat>)
  {
    forall i :: 0 <= i < |ts| ==> ts[i] in pos && pos[ts[i]] == i
  }

  /** Ids grow along the list and never exceed `m`. The definition peels
      off the last tank, whose id bounds all earlier ones. */
  ghost predicate IdsBelow(ts: seq<SwitchableTank>, m: int)
    decreases |ts|
  {
    |ts| == 0 || (ts[|ts| - 1].id <= m && IdsBelow(ts[..|ts| - 1], ts[|ts| - 1].id - 1))
  }

  /** Each tank's registry holds every other tank, once: the last tank and
      each earlier one know each other. */
  ghost predicate RegisteredAll(ts: seq<SwitchableTank>)
    reads ts`otherTanks
    decreases |ts|
  {
    |ts| == 0 ||
      (&& RegisteredAll(ts[..|ts| - 1])
       && NoDuplicates(ts[|ts| - 1].otherTanks)
       && forall i :: 0 <= i < |ts| - 1 ==> ts[|ts| - 1] in ts[i].otherTanks && ts[i] in ts[|ts| - 1].otherTanks)
  }

  /** No two tanks manage the same part resource. */
  ghost predicate ResourcesDistinct(ts: seq<SwitchableTank>)
    reads ts`resource
    decreases |ts|
  {
    |ts| == 0 ||
      (&& ResourcesDistinct(ts[..|ts| - 1])
       && (ts[|ts| - 1].resource.Some? ==> forall i :: 0 <= i < |ts| - 1 ==> ts[i].resource != ts[|ts| - 1].resource))
  }

  /** The ids are strictly increasing and bounded by `m`. */
  lemma {:induction false} IdsOrdered(ts: seq<SwitchableTank>, m: int)
    requires IdsBelow(ts, m)
    ensures forall i :: 0 <= i < |ts| ==> ts[i].id <= m
    ensures forall i, j :: 0 <= i < j < |ts| ==> ts[i].id < ts[j].id
    decreases |ts|
  {
    if |ts| > 0 {
      var n := |ts| - 1;
      IdsOrdered(ts[..n], ts[n].id - 1);
      assert forall i :: 0 <= i < n ==> ts[..n][i] == ts[i];
    }
  }

  /** A looser bound holds too. */
  lemma IdsWeaken(ts: seq<SwitchableTank>, m: int, m': int)
    requires IdsBelow(ts, m) && m <= m'
    ensures IdsBelow(ts, m')
  {
  }

  /** Different positions hold different tanks, as their ids differ. */
  lemma IdsDistinct(ts: seq<SwitchableTank>, m: int)
    requires IdsBelow(ts, m)
    ensures NoDuplicates(ts)
  {
    IdsOrdered(ts, m);
    forall i, j | 0 <= i < j < |ts|
      ensures ts[i] != ts[j]
    {
      assert ts[i].id < ts[j].id;
    }
    DistinctFromPairs(ts);
  }

  /** Tanks with increasing ids have positions. */
  lemma IdsPositions(ts: seq<SwitchableTank>, m: int) returns (pos: map<SwitchableTank, nat>)
    requires IdsBelow(ts, m)
    ensures Indexed(ts, pos)
  {
    IdsDistinct(ts, m);
    pos := Positions(ts);
  }

  /** A tank with an id above all others may go last. */
  lemma AppendIds(ts: seq<SwitchableTank>, t: SwitchableTank, m: int)
    requires IdsBelow(ts, m) && m < t.id
    ensures IdsBelow(ts + [t], t.id)
  {
    assert (ts + [t])[..|ts|] == ts;
    IdsWeaken(ts, m, t.id - 1);
  }

  /** Taking one tank out keeps the ids increasing. */
  lemma {:induction false} RemoveAtIds(ts: seq<SwitchableTank>, k: nat, m: int)
    requires k < |ts| && IdsBelow(ts, m)
    ensures IdsBelow(ts[..k] + ts[k + 1..], m)
    decreases |ts|
  {
    var n := |ts| - 1;
    var rest := ts[..k] + ts[k + 1..];
    if k == n {
      assert rest == ts[..n];
      IdsWeaken(ts[..n], ts[n].id - 1, m);
    } else {
      var init := ts[..n];
      RemoveAtIds(init, k, ts[n].id - 1);
      assert rest[..|rest| - 1] == init[..k] + init[k + 1..];
      assert rest[|rest| - 1] == ts[n];
    }
  }

  /** The registries, pair by pair. */
  lemma {:induction false} RegisteredPairs(ts: seq<SwitchableTank>)
    requires RegisteredAll(ts)
    ensures KnowEachOther(ts)
    decreases |ts|
  {
    if |ts| > 0 {
      var n := |ts| - 1;
      RegisteredPairs(ts[..n]);
      assert forall i :: 0 <= i < n ==> ts[..n][i] == ts[i];
    }
  }

  lemma {:induction false} RegisteredFromPairs(ts: seq<SwitchableTank>)
    requires KnowEachOther(ts)
    ensures RegisteredAll(ts)
    decreases |ts|
  {
    if |ts| > 0 {
      var n := |ts| - 1;
      var init := ts[..n];
      forall i, j | 0 <= i < |init| && 0 <= j < |init| && i != j
        ensures init[j] in init[i].otherTanks
      {
        assert init[j] == ts[j] && init[i] == ts[i];
      }
      RegisteredFromPairs(init);
      forall i | 0 <= i < n
        ensures ts[n] in ts[i].otherTanks && ts[i] in ts[n].otherTanks
      {
      }
    }
  }

  /** Taking one tank out of the list keeps the rest registered with each other. */
  lemma RemoveAtRegistered(ts: seq<SwitchableTank>, k: nat)
    requires k < |ts| && RegisteredAll(ts)
    ensures RegisteredAll(ts[..k] + ts[k + 1..])
  {
    RegisteredPairs(ts);
    RemoveAtPairs(ts, k);
    RegisteredFromPairs(ts[..k] + ts[k + 1..]);
  }

  /** The pairwise form of `RegisteredAll`. */
  ghost predicate KnowEachOther(ts: seq<SwitchableTank>)
    reads ts`otherTanks
  {
    && (forall i, j {:trigger ts[i].otherTanks, ts[j]} :: 0 <= i < |ts| && 0 <= j < |ts| && i != j ==> ts[j] in ts[i].otherTanks)
    && (forall i :: 0 <= i < |ts| ==> NoDuplicates(ts[i].otherTanks))
  }

  lemma RemoveAtPairs(ts: seq<SwitchableTank>, k: nat)
    requires k < |ts| && KnowEachOther(ts)
    ensures KnowEachOther(ts[..k] + ts[k + 1..])
  {
    var rest := ts[..k] + ts[k + 1..];
    forall i, j | 0 <= i < |rest| && 0 <= j < |rest| && i != j
      ensures rest[j] in rest[i].otherTanks
    {
      var qi, qj := if i < k then i else i + 1, if j < k then j else j + 1;
      assert rest[i] == ts[qi] && rest[j] == ts[qj];
    }
    forall i | 0 <= i < |rest|
      ensures NoDuplicates(rest[i].otherTanks)
    {
      assert rest[i] == ts[if i < k then i else i + 1];
    }
  }

  /** The pairwise form of `ResourcesDistinct`. */
  ghost predicate ResourcesApart(ts: seq<SwitchableTank>)
    reads ts`resource
  {
    forall i, j {:trigger ts[i].resource, ts[j].resource} :: 0 <= i < |ts| && 0 <= j < |ts| && i != j && ts[i].resource.Some? ==>
      ts[i].resource != ts[j].resource
  }

  /** The resources, pair by pair. */
  lemma {:induction false} ResourcesPairs(ts: seq<SwitchableTank>)
    requires ResourcesDistinct(ts)
    ensures ResourcesApart(ts)
    decreases |ts|
  {
    if |ts| > 0 {
      var n := |ts| - 1;
      ResourcesPairs(ts[..n]);
      assert forall i :: 0 <= i < n ==> ts[..n][i] == ts[i];
    }
  }

  lemma {:induction false} ResourcesFromPairs(ts: seq<SwitchableTank>)
    requires ResourcesApart(ts)
    ensures ResourcesDistinct(ts)
    decreases |ts|
  {
    if |ts| > 0 {
      var n := |ts| - 1;
      var init := ts[..n];
      forall i, j | 0 <= i < |init| && 0 <= j < |init| && i != j && init[i].resource.Some?
        ensures init[i].resource != init[j].resource
      {
        assert init[j] == ts[j] && init[i] == ts[i];
      }
      ResourcesFromPairs(init);
      forall i | 0 <= i < n && ts[n].resource.Some?
        ensures ts[i].resource != ts[n].resource
      {
      }
    }
  }

  /** No other tank manages the resource of tank `k`. */
  lemma ResourceOnlyAt(ts: seq<SwitchableTank>, k: nat)
    requires k < |ts| && ResourcesDistinct(ts)
    ensures forall i :: 0 <= i < |ts| && i != k && ts[i].resource.Some? ==> ts[i].resource != ts[k].resource
  {
    ResourcesPairs(ts);
  }

  /** Removing the tank at `k` from a list of distinct tanks cuts the list
      there and leaves no copy of it. */
  lemma RemoveAtFirst(ts: seq<SwitchableTank>, k: nat, m: int)
    requires k < |ts| && IdsBelow(ts, m)
    ensures RemoveFirst(ts, ts[k]) == ts[..k] + ts[k + 1..] && ts[k] !in ts[..k] + ts[k + 1..]
  {
    IdsDistinct(ts, m);
    assert ts[k] !in ts[..k];
    RemoveFirstAt(ts, ts[k], k);
    RemoveFirstDistinct(ts, ts[k]);
  }

  /** A tank whose resource no other tank manages may join. */
  lemma AppendResources(ts: seq<SwitchableTank>, t: SwitchableTank)
    requires ResourcesDistinct(ts)
    requires t.resource.Some? ==> forall i :: 0 <= i < |ts| ==> ts[i].resource != t.resource
    ensures ResourcesDistinct(ts + [t])
  {
    assert (ts + [t])[..|ts|] == ts;
  }

  /** Taking one tank out keeps the other resources distinct. */
  lemma RemoveAtResources(ts: seq<SwitchableTank>, k: nat)
    requires k < |ts| && ResourcesDistinct(ts)
    ensures ResourcesDistinct(ts[..k] + ts[k + 1..])
  {
    ResourcesPairs(ts);
    RemoveAtApart(ts, k);
    ResourcesFromPairs(ts[..k] + ts[k + 1..]);
  }

  lemma RemoveAtApart(ts: seq<SwitchableTank>, k: nat)
    requires k < |ts| && ResourcesApart(ts)
    ensures ResourcesApart(ts[..k] + ts[k + 1..])
  {
    var rest := ts[..k] + ts[k + 1..];
    forall i, j | 0 <= i < |rest| && 0 <= j < |rest| && i != j && rest[i].resource.Some?
      ensures rest[i].resource != rest[j].resource
    {
      var qi, qj := if i < k then i else i + 1, if j < k then j else j + 1;
      assert rest[i] == ts[qi] && rest[j] == ts[qj];
    }
  }

  /** What `UpdateMaxAmount` of a tank needs: the part resource it manages
      and the capacity its volume holds. */
  datatype Fit = Fit(resource: Option<string>, capacity: real)

  ghost function FitOf(t: SwitchableTank): Fit
    reads t
  {
    Fit(t.resource, t.MaxResourceInVolume())
  }

  /** The fits of the tanks once their volumes are `vols`. */
  ghost function FitsAt(ts: seq<SwitchableTank>, vols: seq<real>): (r: seq<Fit>)
    requires |vols| == |ts|
    reads ts
    ensures |r| == |ts|
  {
    seq(|ts|, i reads ts requires 0 <= i < |ts| =>
      Fit(ts[i].resource, AmountInVolume(ts[i].tankType, ts[i].resourceInfo, vols[i])))
  }

  ghost function FitsOf(ts: seq<SwitchableTank>): (r: seq<Fit>)
    reads ts
    ensures |r| == |ts|
  {
    FitsAt(ts, VolumesOf(ts))
  }

  /** The fit of tank `i` at volume `vols[i]`. */
  lemma FitsAtIndex(ts: seq<SwitchableTank>, vols: seq<real>, i: nat)
    requires |vols| == |ts| && i < |ts|
    ensures FitsAt(ts, vols)[i] == Fit(ts[i].resource, AmountInVolume(ts[i].tankType, ts[i].resourceInfo, vols[i]))
  {
  }

  /** `fits` lists, tank by tank, the resource and the capacity at `vols`;
      it reads only what resizing a tank leaves alone. */
  ghost predicate FitsAre(ts: seq<SwitchableTank>, vols: seq<real>, fits: seq<Fit>)
    reads ts`resource, ts`tankType, ts`resourceInfo
  {
    && |vols| == |ts| && |fits| == |ts|
    && forall j :: 0 <= j < |ts| ==> fits[j] == Fit(ts[j].resource, AmountInVolume(ts[j].tankType, ts[j].resourceInfo, vols[j]))
  }

  lemma FitsAtAre(ts: seq<SwitchableTank>, vols: seq<real>)
    requires |vols| == |ts|
    ensures FitsAre(ts, vols, FitsAt(ts, vols))
  {
    forall j | 0 <= j < |ts|
      ensures FitsAt(ts, vols)[j] == Fit(ts[j].resource, AmountInVolume(ts[j].tankType, ts[j].resourceInfo, vols[j]))
    {
      FitsAtIndex(ts, vols, j);
    }
  }

  lemma FitsAreAt(ts: seq<SwitchableTank>, vols: seq<real>, fits: seq<Fit>)
    requires FitsAre(ts, vols, fits)
    ensures FitsAt(ts, vols) == fits
  {
    FitsAtAre(ts, vols);
  }


  /** The clamped rescaling leaves the tanks before `k` as they are. */
  lemma {:induction false} RescaledKeeps(vols: seq<real>, k: nat, total: real, s: real, j: nat)
    requires j < k <= |vols|
    ensures RescaledFrom(vols, k, total, s)[j] == vols[j]
    decreases |vols| - k
  {
    if k < |vols| {
      RescaledKeeps(vols[k := NewTankVolume(vols[k], vols[k] * s, Some(total - Sum(vols)))], k + 1, total, s, j);
    }
  }

  /** `UpdateMaxAmount` on the part's resources: the managed resource's
      capacity becomes `f.capacity`, and with `updateAmounts` the amount
      keeps its fill ratio. */
  function Refit(res: map<string, PartResource>, f: Fit, updateAmounts: bool): (r: map<string, PartResource>)
    ensures r.Keys == res.Keys
    ensures f.resource.Some? && f.resource.value in res ==>
              r[f.resource.value] == WithMaxAmount(res[f.resource.value], f.capacity, updateAmounts)
    ensures forall k :: k in res && Some(k) != f.resource ==> r[k] == res[k]
  {
    if f.resource.Some? && f.resource.value in res
    then res[f.resource.value := WithMaxAmount(res[f.resource.value], f.capacity, updateAmounts)]
    else res
  }

  /** The part's resources once each tank in turn has refitted its own. */
  function Refitted(res: map<string, PartResource>, fits: seq<Fit>, updateAmounts: bool): (r: map<string, PartResource>)
    ensures r.Keys == res.Keys
    decreases |fits|
  {
    if |fits| == 0 then res
    else Refit(Refitted(res, fits[..|fits| - 1], updateAmounts), fits[|fits| - 1], updateAmounts)
  }

  /** One more tank refits its resource. */
  lemma RefittedNext(res: map<string, PartResource>, fits: seq<Fit>, k: nat, updateAmounts: bool)
    requires k < |fits|
    ensures Refitted(res, fits[..k + 1], updateAmounts) == Refit(Refitted(res, fits[..k], updateAmounts), fits[k], updateAmounts)
  {
    assert fits[..k + 1][..k] == fits[..k];
  }

  /** A resource no tank manages keeps its entry. */
  lemma {:induction false} RefittedOthers(res: map<string, PartResource>, fits: seq<Fit>, updateAmounts: bool, key: string)
    requires key in res
    requires forall j :: 0 <= j < |fits| ==> fits[j].resource != Some(key)
    ensures Refitted(res, fits, updateAmounts)[key] == res[key]
    decreases |fits|
  {
    if |fits| > 0 {
      RefittedOthers(res, fits[..|fits| - 1], updateAmounts, key);
    }
  }

  /** A resource that only tank `i` manages ends with that tank's capacity,
      whatever the other tanks did. */
  lemma {:induction false} RefittedAt(res: map<string, PartResource>, fits: seq<Fit>, updateAmounts: bool, i: nat)
    requires i < |fits| && fits[i].resource.Some? && fits[i].resource.value in res
    requires forall j :: 0 <= j < |fits| && j != i ==> fits[j].resource != fits[i].resource
    ensures Refitted(res, fits, updateAmounts)[fits[i].resource.value] ==
              WithMaxAmount(res[fits[i].resource.value], fits[i].capacity, updateAmounts)
    decreases |fits|
  {
    var n := |fits| - 1;
    if i == n {
      RefittedOthers(res, fits[..n], updateAmounts, fits[i].resource.value);
    } else {
      RefittedAt(res, fits[..n], updateAmounts, i);
    }
  }

  /** With distinct resources, the resource of every tank ends with the
      capacity its own volume holds. */
  lemma RefittedEach(res: map<string, PartResource>, ts: seq<SwitchableTank>, updateAmounts: bool, i: nat)
    requires i < |ts| && ResourcesDistinct(ts)
    requires ts[i].resource.Some? && ts[i].resource.value in res
    ensures Refitted(res, FitsOf(ts), updateAmounts)[ts[i].resource.value] ==
              WithMaxAmount(res[ts[i].resource.value], ts[i].MaxResourceInVolume(), updateAmounts)
  {
    ResourcesPairs(ts);
    var fits := FitsOf(ts);
    forall j | 0 <= j < |fits| && j != i
      ensures fits[j].resource != fits[i].resource
    {
      FitsAtIndex(ts, VolumesOf(ts), i);
      FitsAtIndex(ts, VolumesOf(ts), j);
      assert ts[i].resource != ts[j].resource;
    }
    FitsAtIndex(ts, VolumesOf(ts), i);
    RefittedAt(res, fits, updateAmounts, i);
  }

  /** A resource no tank manages keeps its entry. */
  lemma RefittedUnmanaged(res: map<string, PartResource>, ts: seq<SwitchableTank>, updateAmounts: bool, key: string)
    requires key in res && forall j :: 0 <= j < |ts| ==> ts[j].resource != Some(key)
    ensures Refitted(res, FitsOf(ts), updateAmounts)[key] == res[key]
  {
    forall j | 0 <= j < |ts|
      ensures FitsOf(ts)[j].resource != Some(key)
    {
      FitsAtIndex(ts, VolumesOf(ts), j);
    }
    RefittedOthers(res, FitsOf(ts), updateAmounts, key);
  }

  lemma AppendValid(ts: seq<SwitchableTank>, t: SwitchableTank, p: Part)
    requires AllValid(ts, p) && t.part == p && t.Valid()
    ensures AllValid(ts + [t], p)
  {
  }

  lemma RemoveAtValid(ts: seq<SwitchableTank>, k: nat, p: Part)
    requires k < |ts| && AllValid(ts, p)
    ensures AllValid(ts[..k] + ts[k + 1..], p)
  {
    var rest := ts[..k] + ts[k + 1..];
    assert forall i :: 0 <= i < |rest| ==> rest[i] == ts[if i < k then i else i + 1];
  }

  /** Registers that each grew by a tank none of them held keep the list
      registered with itself. */
  twostate lemma {:induction false} RegistriesGrown(ts: seq<SwitchableTank>, new t: SwitchableTank)
    requires old(RegisteredAll(ts))
    requires forall i :: 0 <= i < |ts| ==> t !in old(ts[i].otherTanks) && ts[i].otherTanks == old(ts[i].otherTanks) + [t]
    ensures RegisteredAll(ts)
    decreases |ts|
  {
    if |ts| > 0 {
      var n := |ts| - 1;
      RegistriesGrown(ts[..n], t);
      AppendDistinct(old(ts[n].otherTanks), t);
    }
  }

  /** Registering a newcomer with every tank, and every tank with the
      newcomer, keeps the registries complete and free of duplicates. */
  twostate lemma AppendRegistered(ts: seq<SwitchableTank>, new t: SwitchableTank, new pos: map<SwitchableTank, nat>)
    requires old(RegisteredAll(ts)) && Indexed(ts, pos) && t !in ts && t.otherTanks == ts
    requires forall i :: 0 <= i < |ts| ==> t !in old(ts[i].otherTanks) && ts[i].otherTanks == old(ts[i].otherTanks) + [t]
    ensures RegisteredAll(ts + [t])
  {
    RegistriesGrown(ts, t);
    forall i, j | 0 <= i < j < |ts|
      ensures ts[i] != ts[j]
    {
      assert pos[ts[i]] != pos[ts[j]];
    }
    DistinctFromPairs(ts);
    assert (ts + [t])[..|ts|] == ts;
  }

  /** Unregistering a tank that left the list keeps the other registries
      complete, and none of them holds it any more. */
  twostate lemma {:induction false} UnregisteredAll(ts: seq<SwitchableTank>, new t: SwitchableTank)
    requires old(RegisteredAll(ts)) && t !in ts
    requires forall i :: 0 <= i < |ts| ==> ts[i].otherTanks == RemoveFirst(old(ts[i].otherTanks), t)
    ensures RegisteredAll(ts)
    ensures forall i :: 0 <= i < |ts| ==> t !in ts[i].otherTanks
    decreases |ts|
  {
    if |ts| > 0 {
      var n := |ts| - 1;
      UnregisteredAll(ts[..n], t);
      RemoveFirstDistinct(old(ts[n].otherTanks), t);
      forall i | 0 <= i < n
        ensures ts[n] in ts[i].otherTanks && ts[i] in ts[n].otherTanks
      {
        RemoveFirstKeeps(old(ts[i].otherTanks), t, ts[n]);
        RemoveFirstKeeps(old(ts[n].otherTanks), t, ts[i]);
      }
      assert forall i :: 0 <= i < n ==> ts[..n][i] == ts[i];
    }
  }

  /** Resources that stayed put or were dropped stay distinct. */
  twostate lemma {:induction false} ResourcesDropped(ts: seq<SwitchableTank>)
    requires old(ResourcesDistinct(ts))
    requires forall i :: 0 <= i < |ts| ==> ts[i].resource.None? || ts[i].resource == old(ts[i].resource)
    ensures ResourcesDistinct(ts)
    decreases |ts|
  {
    if |ts| > 0 {
      ResourcesDropped(ts[..|ts| - 1]);
    }
  }

  /** Registries that only grew by a tank not in the list keep tanks valid. */
  twostate lemma RegistriesGrowKeepValid(ts: seq<SwitchableTank>, new p: Part, new t: SwitchableTank)
    requires old(allocated(p)) && old(AllValid(ts, p)) && t !in ts && p.resources == old(p.resources)
    requires forall i :: 0 <= i < |ts| ==> ts[i].resource == old(ts[i].resource) && ts[i].otherTanks == old(ts[i].otherTanks) + [t]
    ensures AllValid(ts, p)
  {
    forall i | 0 <= i < |ts|
      ensures ts[i].part == p && ts[i].Valid()
    {
      assert old(ts[i].Valid());
    }
  }

  /** Unregistering a tank keeps tanks valid. */
  twostate lemma RegistriesShrinkKeepValid(ts: seq<SwitchableTank>, new p: Part, new t: SwitchableTank)
    requires old(allocated(p)) && old(AllValid(ts, p)) && p.resources == old(p.resources)
    requires forall i :: 0 <= i < |ts| ==> ts[i].resource == old(ts[i].resource) && ts[i].otherTanks == RemoveFirst(old(ts[i].otherTanks), t)
    ensures AllValid(ts, p)
  {
    forall i | 0 <= i < |ts|
      ensures ts[i].part == p && ts[i].Valid()
    {
      assert old(ts[i].Valid());
      RemoveFirstSpec(old(ts[i].otherTanks), t);
    }
  }

  /** A position holding a tank of the list. */
  lemma PositionOf(ts: seq<SwitchableTank>, t: SwitchableTank) returns (k: nat)
    requires t in ts
    ensures k < |ts| && ts[k] == t
  {
    k :| 0 <= k < |ts| && ts[k] == t;
  }

  /** Cutting the tank at position `k` out of a valid list: what
      `RemoveFirst` yields, and the list invariants it keeps. */
  lemma RemoveAtAll(ts: seq<SwitchableTank>, k: nat, m: int, p: Part)
    requires k < |ts| && AllValid(ts, p) && IdsBelow(ts, m) && RegisteredAll(ts) && ResourcesDistinct(ts)
    ensures var rest := ts[..k] + ts[k + 1..];
      && RemoveFirst(ts, ts[k]) == rest && ts[k] !in rest
      && AllValid(rest, p) && IdsBelow(rest, m) && RegisteredAll(rest) && ResourcesDistinct(rest)
      && Sum(VolumesOf(rest)) == Sum(VolumesOf(ts)) - ts[k].volume
  {
    var vols := VolumesOf(ts);
    RemoveAtFirst(ts, k, m);
    RemoveAtValid(ts, k, p);
    RemoveAtIds(ts, k, m);
    RemoveAtRegistered(ts, k);
    RemoveAtResources(ts, k);
    VolumesRemoveAt(ts, k);
    SumRemove(vols, k);
  }

  /** The volumes of a list with one tank more or less. */
  lemma VolumesAppend(ts: seq<SwitchableTank>, t: SwitchableTank)
    ensures VolumesOf(ts + [t]) == VolumesOf(ts) + [t.volume]
  {
    SameElements(VolumesOf(ts + [t]), VolumesOf(ts) + [t.volume]);
  }

  lemma VolumesRemoveAt(ts: seq<SwitchableTank>, k: nat)
    requires k < |ts|
    ensures VolumesOf(ts[..k] + ts[k + 1..]) == VolumesOf(ts)[..k] + VolumesOf(ts)[k + 1..]
  {
    var vs := VolumesOf(ts);
    SameElements(VolumesOf(ts[..k] + ts[k + 1..]), vs[..k] + vs[k + 1..]);
  }

  /** The validators of a new tank, asked in order until one objects. */
  method CheckValidators(validators: seq<(string, real) -> string>, tankType: string, volume: real) returns (ok: bool)
    ensures ok <==> Accepted(validators, tankType, volume)
  {
    var k := 0;
    while k < |validators|
      invariant 0 <= k <= |validators|
      invariant forall i :: 0 <= i < k ==> validators[i](tankType, volume) == ""
    {
      if validators[k](tankType, volume) != "" {
        return false;
      }
      k := k + 1;
    }
    return true;
  }

  class SwitchableTankManager {
    const part: Part
    var tanks: seq<SwitchableTank>
    /** `Volume`: the volume the tanks share, in cubic meters. */
    var volume: real
    /** The caches `tanks_volume`, `availableVolume` and `availableVolumePercent`. */
    var tanksVolume: real
    var availableVolume: real
    var availableVolumePercent: real
    var maxId: int
    var includes: seq<string>
    var excludes: seq<string>

    /** The volume the tanks use. */
    ghost function Used(): real
      reads this`tanks, tanks
    {
      Sum(VolumesOf(tanks))
    }

    /** A computed cache holds the value it stands for. */
    ghost predicate CachesValid()
      reads this`tanks, this`volume, this`tanksVolume, this`availableVolume, this`availableVolumePercent, tanks
    {
      && (tanksVolume >= 0.0 ==> tanksVolume == Used())
      && (availableVolume >= 0.0 ==> availableVolume == volume - Used())
      && (availableVolumePercent >= 0.0 ==>
            availableVolumePercent == Ratio(volume - Used(), volume) && availableVolume == volume - Used())
    }

    ghost predicate CachesInvalid()
      reads this`tanksVolume, this`availableVolume, this`availableVolumePercent
    {
      tanksVolume == -1.0 && availableVolume == -1.0 && availableVolumePercent == -1.0
    }

    /** Caches that are not computed cannot be wrong. */
    lemma InvalidCachesValid()
      requires CachesInvalid()
      ensures CachesValid()
    {
    }

    /** The tanks are modules of this part and each is consistent. */
    ghost predicate TanksValid()
      reads this`tanks, tanks`resource, tanks`otherTanks, part
    {
      AllValid(tanks, part)
    }

    /** Ids grow along the list and never exceed `max_id`. */
    ghost predicate IdsIncreasing()
      reads this`tanks, this`maxId
    {
      IdsBelow(tanks, maxId)
    }

    /** Each tank's registry holds every other tank, once. */
    ghost predicate Registered()
      reads this`tanks, tanks`otherTanks
    {
      RegisteredAll(tanks)
    }

    /** No two tanks manage the same part resource. */
    ghost predicate DistinctResources()
      reads this`tanks, tanks`resource
    {
      ResourcesDistinct(tanks)
    }

    /** The invariants of the tank list, independent of the caches. */
    ghost predicate Structure()
      reads this`tanks, this`maxId, tanks`resource, tanks`otherTanks, part
    {
      TanksValid() && IdsIncreasing() && Registered() && DistinctResources()
    }

    ghost predicate Valid()
      reads this, tanks, part
    {
      Structure() && CachesValid()
    }

    /** Different positions hold different tanks, as their ids differ. */
    lemma IdsDistinguish()
      requires IdsIncreasing()
      ensures NoDuplicates(tanks)
    {
      IdsDistinct(tanks, maxId);
    }

    /** Ids tell the tanks apart: the tank at position `i` occurs nowhere else. */
    lemma TankOnlyAt(i: nat)
      requires IdsIncreasing() && i < |tanks|
      ensures forall j :: 0 <= j < |tanks| && j != i ==> tanks[j] != tanks[i]
    {
      IdsOrdered(tanks, maxId);
      forall j | 0 <= j < |tanks| && j != i
        ensures tanks[j] != tanks[i]
      {
        assert j < i ==> tanks[j].id < tanks[i].id;
        assert i < j ==> tanks[i].id < tanks[j].id;
      }
    }

    /** `pos` maps every tank to its position, so the tanks are distinct. */
    ghost predicate Indexes(pos: map<SwitchableTank, nat>)
      reads this`tanks
    {
      Indexed(tanks, pos)
    }

    /** Tanks with increasing ids have positions. */
    lemma TankPositions() returns (pos: map<SwitchableTank, nat>)
      requires IdsIncreasing()
      ensures Indexes(pos)
    {
      pos := IdsPositions(tanks, maxId);
    }

    constructor (part: Part)
      ensures this.part == part && tanks == [] && volume == 0.0 && maxId == -1
      ensures includes == [] && excludes == []
      ensures CachesInvalid() && Valid()
    {
      this.part := part;
      tanks := [];
      volume := 0.0;
      tanksVolume := -1.0;
      availableVolume := -1.0;
      availableVolumePercent := -1.0;
      maxId := -1;
      includes := [];
      excludes := [];
    }

    /** `InvalidateCaches`. */
    method InvalidateCaches()
      modifies this`tanksVolume, this`availableVolume, this`availableVolumePercent
      ensures CachesInvalid() && CachesValid()
      ensures VolumesOf(tanks) == old(VolumesOf(tanks))
      ensures Structure() <==> old(Structure())
    {
      tanksVolume := -1.0;
      availableVolume := -1.0;
      availableVolumePercent := -1.0;
    }

    /** The `Volume` setter: always invalidates the caches. */
    method SetVolume(v: real)
      requires CachesValid()
      modifies this`volume, this`tanksVolume, this`availableVolume, this`availableVolumePercent
      ensures CachesValid() && volume == v && CachesInvalid()
      ensures Structure() <==> old(Structure())
    {
      volume := v;
      InvalidateCaches();
    }

    /** `TanksVolume`: the sum of the tanks' volumes, cached. */
    method TanksVolume() returns (v: real)
      requires CachesValid()
      modifies this`tanksVolume
      ensures CachesValid() && v == Used()
      ensures VolumesOf(tanks) == old(VolumesOf(tanks))
      ensures Structure() <==> old(Structure())
    {
      if tanksVolume < 0.0 {
        ghost var vs := VolumesOf(tanks);
        var sum := 0.0;
        var k := 0;
        while k < |tanks|
          invariant 0 <= k <= |tanks|
          invariant sum == Sum(vs[..k])
        {
          assert vs[..k + 1][..k] == vs[..k];
          sum := sum + tanks[k].volume;
          k := k + 1;
        }
        assert vs[..k] == vs;
        tanksVolume := sum;
      }
      v := tanksVolume;
    }

    /** `AvailableVolume`: the total volume less the used volume, cached. */
    method AvailableVolume() returns (v: real)
      requires CachesValid()
      modifies this`tanksVolume, this`availableVolume
      ensures CachesValid() && v == volume - Used() && availableVolume == v
      ensures VolumesOf(tanks) == old(VolumesOf(tanks))
    {
      if availableVolume < 0.0 {
        var used := TanksVolume();
        availableVolume := volume - used;
      }
      v := availableVolume;
    }

    /** `AvailableVolumePercent` as written: the fraction is cached, but the
        getter returns the available volume. */
    method AvailableVolumePercentAsWritten() returns (v: real)
      requires CachesValid()
      modifies this`tanksVolume, this`availableVolume, this`availableVolumePercent
      ensures CachesValid() && v == volume - Used()
    {
      if availableVolumePercent < 0.0 {
        var free := AvailableVolume();
        availableVolumePercent := Ratio(free, volume);
      }
      v := availableVolume;
    }

    /** `AvailableVolumePercent` as meant: the free fraction of the volume. */
    method AvailableVolumePercent() returns (v: real)
      requires CachesValid()
      modifies this`tanksVolume, this`availableVolume, this`availableVolumePercent
      ensures CachesValid() && v == Ratio(volume - Used(), volume)
      ensures volume > 0.0 && 0.0 <= Used() <= volume ==> 0.0 <= v <= 1.0
    {
      if availableVolumePercent < 0.0 {
        var free := AvailableVolume();
        availableVolumePercent := Ratio(free, volume);
        v := availableVolumePercent;
      } else {
        v := availableVolumePercent;
      }
      if volume > 0.0 && 0.0 <= Used() <= volume {
        FreeFractionBounds(volume, Used());
      }
    }

    /** `ClampNewVolume`: a shrinking request stands; growth is capped by
        the available volume. */
    method ClampNewVolume(oldVolume: real, newVolume: real) returns (r: real)
      requires CachesValid()
      modifies this`tanksVolume, this`availableVolume
      ensures CachesValid() && r == ClampedVolume(oldVolume, newVolume, volume - Used())
    {
      if oldVolume > newVolume {
        return newVolume;
      }
      var free := AvailableVolume();
      r := if newVolume - oldVolume > free then oldVolume + free else newVolume;
    }

    /** `GetTank`: the tank with the given id, if any. */
    function GetTank(id: int): (r: Option<SwitchableTank>)
      reads this`tanks
      ensures r.Some? ==> r.value in tanks && r.value.id == id
      ensures r.None? <==> forall i :: 0 <= i < |tanks| ==> tanks[i].id != id
    {
      match IndexOfId(tanks, id)
      case None => None
      case Some(k) => Some(tanks[k])
    }

    /** With increasing ids, each tank is found by its own id. */
    lemma GetTankById(i: nat)
      requires IdsIncreasing() && i < |tanks|
      ensures GetTank(tanks[i].id) == Some(tanks[i])
    {
      IdsOrdered(tanks, maxId);
      var k := IndexOfId(tanks, tanks[i].id).value;
      assert k == i;
    }

    /** The `SetVolume` of tank `i` followed by the cache invalidation it
        triggers; no other tank changes. */
    method ResizeTank(i: nat, v: real, updateAmount: bool, available: Option<real>)
      requires TanksValid() && i < |tanks|
      requires forall j :: 0 <= j < |tanks| && j != i ==> tanks[j] != tanks[i]
      modifies this`tanksVolume, this`availableVolume, this`availableVolumePercent, {tanks[i]}`volume, part
      ensures TanksValid() && CachesInvalid()
      ensures VolumesOf(tanks) == old(VolumesOf(tanks))[i := NewTankVolume(old(tanks[i].volume), v, available)]
      ensures part.resources.Keys == old(part.resources.Keys)
      ensures part.resources == Refit(old(part.resources), FitOf(tanks[i]), updateAmount)
      ensures available.Some? && 0.0 <= available.value ==> Used() <= old(Used()) + available.value
    {
      ghost var vols := VolumesOf(tanks);
      if available.Some? && 0.0 <= available.value {
        ResizeWithin(vols, i, v, available.value);
      }
      tanks[i].SetVolume(v, updateAmount, available);
      InvalidateCaches();
      assert TanksValid() by {
        forall j | 0 <= j < |tanks|
          ensures tanks[j].part == part && tanks[j].Valid()
        {
          assert old(tanks[j].Valid());
        }
      }
      SameElements(VolumesOf(tanks), vols[i := tanks[i].volume]);
    }

    /** A tank clamped by a free volume grows the sum by at most that much. */
    static lemma ResizeWithin(vols: seq<real>, i: nat, v: real, free: real)
      requires i < |vols| && 0.0 <= free
      ensures Sum(vols[i := NewTankVolume(vols[i], v, Some(free))]) <= Sum(vols) + free
    {
      SumUpdate(vols, i, NewTankVolume(vols[i], v, Some(free)));
    }

    /** A tank's `SetVolume` under this manager: the request is clamped by
        the available volume; a budget the tanks fit is kept. */
    method SetTankVolume(i: nat, v: real, updateAmount: bool)
      requires TanksValid() && CachesValid() && i < |tanks|
      requires forall j :: 0 <= j < |tanks| && j != i ==> tanks[j] != tanks[i]
      modifies this`tanksVolume, this`availableVolume, this`availableVolumePercent, {tanks[i]}`volume, part
      ensures TanksValid() && CachesInvalid()
      ensures VolumesOf(tanks) == old(VolumesOf(tanks))[i := NewTankVolume(old(tanks[i].volume), v, Some(old(volume - Used())))]
      ensures part.resources.Keys == old(part.resources.Keys)
      ensures part.resources == Refit(old(part.resources), FitOf(tanks[i]), updateAmount)
      ensures old(Used()) <= volume ==> Used() <= volume
    {
      ghost var vols := VolumesOf(tanks);
      var free := AvailableVolume();
      assert free == volume - Sum(vols) && vols[i] == tanks[i].volume;
      ResizeTank(i, v, updateAmount, Some(free));
    }

    /** The state of the loop in `RescaleTanks` as written once `k` tanks
        are done: the remaining turns lead to `target`, and the part's
        resources are refitted to the first `k` of `fits`. */
    ghost predicate RescaledAsWrittenState(k: nat, s: real, updateAmounts: bool, target: seq<real>, fits: seq<Fit>,
                                          orig: map<string, PartResource>)
      reads this, tanks, part
    {
      && TanksValid() && CachesValid() && k <= |tanks|
      && RescaledFrom(VolumesOf(tanks), k, volume, s) == target
      && FitsAre(tanks, target, fits) && part.resources == Refitted(orig, fits[..k], updateAmounts)
    }

    lemma RescaledAsWrittenStart(s: real, updateAmounts: bool)
      requires TanksValid() && CachesValid()
      ensures var target := RescaledFrom(VolumesOf(tanks), 0, volume, s);
        RescaledAsWrittenState(0, s, updateAmounts, target, FitsAt(tanks, target), part.resources)
    {
      var target := RescaledFrom(VolumesOf(tanks), 0, volume, s);
      FitsAtAre(tanks, target);
      assert FitsAt(tanks, target)[..0] == [];
    }

    lemma RescaledAsWrittenDone(s: real, updateAmounts: bool, target: seq<real>, fits: seq<Fit>,
                                orig: map<string, PartResource>)
      requires RescaledAsWrittenState(|tanks|, s, updateAmounts, target, fits, orig)
      ensures VolumesOf(tanks) == target && part.resources == Refitted(orig, FitsOf(tanks), updateAmounts)
    {
      assert fits[..|tanks|] == fits;
      RescaledDone(VolumesOf(tanks), |tanks|, volume, s);
      FitsAreAt(tanks, target, fits);
    }

    /** One turn of the loop in `RescaleTanks` as written, carrying the loop
        state from `k` tanks done to `k + 1`. */
    method RescaleTurnAsWritten(k: nat, s: real, updateAmounts: bool, ghost pos: map<SwitchableTank, nat>,
                                ghost target: seq<real>, ghost fits: seq<Fit>, ghost orig: map<string, PartResource>)
      requires Indexes(pos) && k < |tanks| && RescaledAsWrittenState(k, s, updateAmounts, target, fits, orig)
      modifies this`tanksVolume, this`availableVolume, this`availableVolumePercent, {tanks[k]}`volume, part
      ensures CachesInvalid() && RescaledAsWrittenState(k + 1, s, updateAmounts, target, fits, orig)
      ensures part.resources == Refit(old(part.resources), FitOf(tanks[k]), updateAmounts)
    {
      RescaleTankAsWritten(k, s, updateAmounts, pos);
      RescaledKeeps(VolumesOf(tanks), k + 1, volume, s, k);
      RefittedNext(orig, fits, k, updateAmounts);
    }

    /** Tank `k` asks for `relative_scale` times its volume through the
        manager's clamp, which is one step of `RescaledFrom`; the part's
        resource of that tank is refitted to the new volume. */
    method RescaleTankAsWritten(k: nat, s: real, updateAmounts: bool, ghost pos: map<SwitchableTank, nat>)
      requires TanksValid() && Indexes(pos) && CachesValid() && k < |tanks|
      modifies this`tanksVolume, this`availableVolume, this`availableVolumePercent, {tanks[k]}`volume, part
      ensures TanksValid() && CachesValid() && CachesInvalid()
      ensures RescaledFrom(VolumesOf(tanks), k + 1, volume, s) == RescaledFrom(old(VolumesOf(tanks)), k, volume, s)
      ensures part.resources == Refit(old(part.resources), FitOf(tanks[k]), updateAmounts)
    {
      ghost var cur := VolumesOf(tanks);
      ghost var free := volume - Used();
      var x := tanks[k].volume;
      var v := x * s;
      SetTankVolume(k, v, updateAmounts);
      RescaledStep(cur, k, volume, s, x, v, free, VolumesOf(tanks));
      InvalidCachesValid();
    }

    /** `RescaleTanks` as written: each tank in turn asks for `relative_scale`
        times its volume through the manager's clamp, so a tank may only grow
        into the volume still free; the tanks stay within a volume they fit. */
    method RescaleTanksAsWritten(s: real, updateAmounts: bool, ghost pos: map<SwitchableTank, nat>)
      requires TanksValid() && Indexes(pos) && CachesValid()
      modifies this`tanksVolume, this`availableVolume, this`availableVolumePercent, tanks`volume, part
      ensures TanksValid()
      ensures s <= 0.0 ==> unchanged(this) && unchanged(tanks) && unchanged(part)
      ensures s > 0.0 ==> VolumesOf(tanks) == RescaledFrom(old(VolumesOf(tanks)), 0, volume, s) && CachesInvalid()
      ensures s > 0.0 ==> part.resources == Refitted(old(part.resources), FitsOf(tanks), updateAmounts)
    {
      if s <= 0.0 {
        return;
      }
      ghost var target := RescaledFrom(VolumesOf(tanks), 0, volume, s);
      ghost var fits := FitsAt(tanks, target);
      RescaledAsWrittenStart(s, updateAmounts);
      RescaleEachAsWritten(s, updateAmounts, pos, target, fits, part.resources);
      RescaledAsWrittenDone(s, updateAmounts, target, fits, old(part.resources));
      ghost var fitted := FitsOf(tanks);
      InvalidateCaches();
      assert FitsOf(tanks) == fitted && TanksValid();
    }

    /** The loop of `RescaleTanksAsWritten`. */
    method RescaleEachAsWritten(s: real, updateAmounts: bool, ghost pos: map<SwitchableTank, nat>,
                                ghost target: seq<real>, ghost fits: seq<Fit>, ghost orig: map<string, PartResource>)
      requires Indexes(pos) && RescaledAsWrittenState(0, s, updateAmounts, target, fits, orig)
      modifies this`tanksVolume, this`availableVolume, this`availableVolumePercent, tanks`volume, part
      ensures RescaledAsWrittenState(|tanks|, s, updateAmounts, target, fits, orig)
    {
      var k := 0;
      while k < |tanks|
        invariant 0 <= k <= |tanks| && RescaledAsWrittenState(k, s, updateAmounts, target, fits, orig)
      {
        RescaleTurnAsWritten(k, s, updateAmounts, pos, target, fits, orig);
        k := k + 1;
      }
    }

    /** The state of the loop in `RescaleTanks` as meant once `k` tanks are
        done: those are scaled, and the part's resources are refitted to the
        first `k` of `fits`. */
    ghost predicate ScaledUpToState(k: nat, s: real, updateAmounts: bool, vols: seq<real>, fits: seq<Fit>,
                                    orig: map<string, PartResource>)
      reads this, tanks, part
    {
      && TanksValid() && k <= |tanks| && VolumesOf(tanks) == ScaledUpTo(vols, k, s)
      && FitsAre(tanks, ScaledUpTo(vols, |tanks|, s), fits) && part.resources == Refitted(orig, fits[..k], updateAmounts)
    }

    lemma ScaledUpToStart(s: real, updateAmounts: bool)
      requires TanksValid()
      ensures var vols := VolumesOf(tanks);
        ScaledUpToState(0, s, updateAmounts, vols, FitsAt(tanks, ScaledUpTo(vols, |tanks|, s)), part.resources)
    {
      var target := ScaledUpTo(VolumesOf(tanks), |tanks|, s);
      FitsAtAre(tanks, target);
      assert FitsAt(tanks, target)[..0] == [];
      assert VolumesOf(tanks) == ScaledUpTo(VolumesOf(tanks), 0, s);
    }

    lemma ScaledUpToDone(s: real, updateAmounts: bool, vols: seq<real>, fits: seq<Fit>, orig: map<string, PartResource>)
      requires ScaledUpToState(|tanks|, s, updateAmounts, vols, fits, orig)
      ensures VolumesOf(tanks) == ScaledUpTo(vols, |tanks|, s) && part.resources == Refitted(orig, FitsOf(tanks), updateAmounts)
    {
      assert fits[..|tanks|] == fits;
      FitsAreAt(tanks, ScaledUpTo(vols, |tanks|, s), fits);
    }

    /** One turn of the loop in `RescaleTanks` as meant, carrying the loop
        state from `k` tanks done to `k + 1`. */
    method RescaleTurn(k: nat, s: real, updateAmounts: bool, ghost pos: map<SwitchableTank, nat>, ghost vols: seq<real>,
                       ghost fits: seq<Fit>, ghost orig: map<string, PartResource>)
      requires Indexes(pos) && k < |tanks| && ScaledUpToState(k, s, updateAmounts, vols, fits, orig)
      modifies this`tanksVolume, this`availableVolume, this`availableVolumePercent, {tanks[k]}`volume, part
      ensures CachesInvalid() && ScaledUpToState(k + 1, s, updateAmounts, vols, fits, orig)
      ensures part.resources == Refit(old(part.resources), FitOf(tanks[k]), updateAmounts)
    {
      RescaleTank(k, s, updateAmounts, pos, vols);
      RefittedNext(orig, fits, k, updateAmounts);
    }

    /** Tank `k` gets `relative_scale` times its volume, which is one step
        of `ScaledUpTo`; the part's resource of that tank is refitted to the
        new volume. */
    method RescaleTank(k: nat, s: real, updateAmounts: bool, ghost pos: map<SwitchableTank, nat>, ghost vols: seq<real>)
      requires TanksValid() && Indexes(pos) && k < |tanks| && VolumesOf(tanks) == ScaledUpTo(vols, k, s)
      modifies this`tanksVolume, this`availableVolume, this`availableVolumePercent, {tanks[k]}`volume, part
      ensures TanksValid() && CachesInvalid()
      ensures VolumesOf(tanks) == ScaledUpTo(vols, k + 1, s)
      ensures part.resources == Refit(old(part.resources), FitOf(tanks[k]), updateAmounts)
    {
      var x := tanks[k].volume;
      var v := x * s;
      ResizeTank(k, v, updateAmounts, None);
      ScaledUpToStep(vols, k, s, x, v, VolumesOf(tanks));
    }

    /** `RescaleTanks` as meant: every tank's volume is multiplied by
        `relative_scale` (and floored at zero), so the used volume scales by
        it too. */
    method RescaleTanks(s: real, updateAmounts: bool, ghost pos: map<SwitchableTank, nat>)
      requires TanksValid() && Indexes(pos)
      modifies this`tanksVolume, this`availableVolume, this`availableVolumePercent, tanks`volume, part
      ensures TanksValid()
      ensures s <= 0.0 ==> unchanged(this) && unchanged(tanks) && unchanged(part)
      ensures s > 0.0 ==> VolumesOf(tanks) == ScaledUpTo(old(VolumesOf(tanks)), |tanks|, s) && CachesInvalid()
      ensures s > 0.0 ==> part.resources == Refitted(old(part.resources), FitsOf(tanks), updateAmounts)
    {
      if s <= 0.0 {
        return;
      }
      ghost var vols := VolumesOf(tanks);
      ghost var fits := FitsAt(tanks, ScaledUpTo(vols, |tanks|, s));
      ScaledUpToStart(s, updateAmounts);
      RescaleEach(s, updateAmounts, pos, vols, fits, part.resources);
      ScaledUpToDone(s, updateAmounts, vols, fits, old(part.resources));
      ghost var fitted := FitsOf(tanks);
      InvalidateCaches();
      assert FitsOf(tanks) == fitted && TanksValid();
    }

    /** The loop of `RescaleTanks`. */
    method RescaleEach(s: real, updateAmounts: bool, ghost pos: map<SwitchableTank, nat>, ghost vols: seq<real>,
                       ghost fits: seq<Fit>, ghost orig: map<string, PartResource>)
      requires Indexes(pos) && ScaledUpToState(0, s, updateAmounts, vols, fits, orig)
      modifies this`tanksVolume, this`availableVolume, this`availableVolumePercent, tanks`volume, part
      ensures ScaledUpToState(|tanks|, s, updateAmounts, vols, fits, orig)
    {
      var k := 0;
      while k < |tanks|
        invariant 0 <= k <= |tanks| && ScaledUpToState(k, s, updateAmounts, vols, fits, orig)
      {
        RescaleTurn(k, s, updateAmounts, pos, vols, fits, orig);
        k := k + 1;
      }
    }

    /** Creating the new tank module in `AddTank`: the next id, the manager's
        filters, the requested type, volume and resource, then `OnStart`. */
    method NewTank(tankType: string, vol: real, res: string, amount: real,
                   lib: Library, editor: bool, partVolume: real) returns (tank: SwitchableTank)
      requires TanksValid() && Loaded(lib)
      modifies this`maxId, part
      ensures TanksValid()
      ensures fresh(tank) && tank.part == part && tank.Valid()
      ensures tank.id == old(maxId) + 1 && maxId == tank.id && tank.managed
      ensures tank.otherTanks == tanks
      ensures tank.volume == if vol < 0.0 then partVolume else vol
      ensures tankType != "" ==> tank.tankTypeName == tankType && tank.tankType == GetTankType(lib, tankType)
      ensures tank.initialAmount == if editor then Clamp01(amount) else 0.0
      ensures tank.includes == includes && tank.excludes == excludes
      ensures tank.resource.Some? ==> forall i :: 0 <= i < |tanks| ==> tanks[i].resource != tank.resource
      ensures part.resources.Keys >= old(part.resources.Keys)
      ensures tank.resource.None? ==> part.resources == old(part.resources)
      ensures Used() == old(Used())
    {
      maxId := maxId + 1;
      tank := Spawn(maxId, tankType, vol, res, amount, lib, editor, partVolume);
      assert tank.resource.Some? ==> forall i :: 0 <= i < |tanks| ==> tanks[i].ResourceInUse() != tank.resource.value;
    }

    /** The module itself: constructed with the id, the manager's filters,
        the requested type, volume, resource and fill, then started among
        the present tanks. */
    method Spawn(id: int, tankType: string, vol: real, res: string, amount: real,
                 lib: Library, editor: bool, partVolume: real) returns (tank: SwitchableTank)
      requires Loaded(lib)
      modifies part
      ensures fresh(tank) && tank.part == part && tank.Valid()
      ensures tank.id == id && tank.managed && tank.otherTanks == tanks
      ensures tank.volume == if vol < 0.0 then partVolume else vol
      ensures tankType != "" ==> tank.tankTypeName == tankType && tank.tankType == GetTankType(lib, tankType)
      ensures tank.initialAmount == if editor then Clamp01(amount) else 0.0
      ensures tank.includes == includes && tank.excludes == excludes
      ensures tank.resource.Some? ==> forall i :: 0 <= i < |tanks| ==> old(tanks[i].ResourceInUse()) != tank.resource.value
      ensures part.resources.Keys >= old(part.resources.Keys)
      ensures tank.resource.None? ==> part.resources == old(part.resources)
    {
      tank := new SwitchableTank(part, id, vol, tankType, includes, excludes, if editor then Clamp01(amount) else 0.0, res);
      tank.OnStart(tanks, lib, editor, partVolume);
    }

    /** `tanks.ForEach(t => t.RegisterOtherTank(tank))` for a new tank, which
        already knows all of them. */
    method RegisterWithAll(tank: SwitchableTank, ghost pos: map<SwitchableTank, nat>)
      requires AllValid(tanks, part) && RegisteredAll(tanks) && Indexed(tanks, pos)
      requires tank !in tanks && tank.otherTanks == tanks && tank.part == part && tank.Valid()
      requires forall i :: 0 <= i < |tanks| ==> tank !in tanks[i].otherTanks
      modifies tanks`otherTanks
      ensures forall i :: 0 <= i < |tanks| ==> tanks[i].otherTanks == old(tanks[i].otherTanks) + [tank]
      ensures AllValid(tanks + [tank], part) && RegisteredAll(tanks + [tank])
      ensures VolumesOf(tanks) == old(VolumesOf(tanks))
    {
      var k := 0;
      while k < |tanks|
        invariant 0 <= k <= |tanks|
        invariant forall i :: 0 <= i < k ==> tanks[i].otherTanks == old(tanks[i].otherTanks) + [tank]
        invariant forall i :: k <= i < |tanks| ==> tanks[i].otherTanks == old(tanks[i].otherTanks)
      {
        tanks[k].RegisterOtherTank(tank);
        k := k + 1;
      }
      RegistriesGrowKeepValid(tanks, part, tank);
      AppendValid(tanks, tank, part);
      AppendRegistered(tanks, tank, pos);
      assert VolumesOf(tanks) == old(VolumesOf(tanks));
    }

    /** `tanks.Add(tank); InvalidateCaches();` once the new tank is registered. */
    method Append(tank: SwitchableTank)
      requires AllValid(tanks + [tank], part) && IdsBelow(tanks + [tank], maxId)
      requires RegisteredAll(tanks + [tank]) && ResourcesDistinct(tanks + [tank])
      modifies this`tanks, this`tanksVolume, this`availableVolume, this`availableVolumePercent
      ensures tanks == old(tanks) + [tank]
      ensures Structure() && CachesValid() && CachesInvalid()
      ensures VolumesOf(tanks) == old(VolumesOf(tanks)) + [tank.volume]
    {
      VolumesAppend(tanks, tank);
      tanks := tanks + [tank];
      assert Structure();
      InvalidateCaches();
    }

    /** The end of `AddTank`: the new tank is registered with all others,
        appended, and the caches are dropped. */
    method AppendTank(tank: SwitchableTank)
      requires AllValid(tanks, part) && IdsBelow(tanks, maxId - 1) && RegisteredAll(tanks) && ResourcesDistinct(tanks)
      requires tank !in tanks && tank.part == part && tank.Valid() && tank.id == maxId && tank.otherTanks == tanks
      requires forall i :: 0 <= i < |tanks| ==> tank !in tanks[i].otherTanks
      requires tank.resource.Some? ==> forall i :: 0 <= i < |tanks| ==> tanks[i].resource != tank.resource
      modifies this`tanks, this`tanksVolume, this`availableVolume, this`availableVolumePercent, tanks`otherTanks
      ensures Valid() && CachesInvalid()
      ensures tanks == old(tanks) + [tank] && tanks[..|old(tanks)|] == old(tanks)
      ensures Used() == old(Used()) + tank.volume
    {
      ghost var vols := VolumesOf(tanks);
      ghost var pos := IdsPositions(tanks, maxId - 1);
      AppendIds(tanks, tank, maxId - 1);
      AppendResources(tanks, tank);
      RegisterWithAll(tank, pos);
      Append(tank);
      SumAppend(vols, [tank.volume]);
      SumSingle(tank.volume);
    }

    /** `AddTank`: refused for an unknown type, and, unless forced, when
        adding is disabled or a validator objects; otherwise a new tank with
        the next id is registered with all others and appended. */
    method AddTank(tankType: string, vol: real, res: string, amount: real, force: bool, addRemove: bool,
                   validators: seq<(string, real) -> string>, lib: Library, editor: bool, partVolume: real)
      returns (ok: bool)
      requires Valid() && Loaded(lib)
      modifies this, tanks`otherTanks, part
      ensures Valid()
      ensures ok <==> HaveTankType(lib, tankType) && (force || (addRemove && Accepted(validators, tankType, vol)))
      ensures !ok ==> tanks == old(tanks) && maxId == old(maxId) && part.resources == old(part.resources)
      ensures ok ==> |tanks| == |old(tanks)| + 1 && tanks[..|old(tanks)|] == old(tanks)
      ensures ok ==> fresh(tanks[|tanks| - 1]) && tanks[|tanks| - 1].id == old(maxId) + 1 == maxId
      ensures ok ==> tanks[|tanks| - 1].volume == (if vol < 0.0 then partVolume else vol)
      ensures ok ==> Used() == old(Used()) + tanks[|tanks| - 1].volume
      ensures ok ==> CachesInvalid()
      ensures ok && tankType != "" ==>
                tanks[|tanks| - 1].tankTypeName == tankType && tanks[|tanks| - 1].tankType == GetTankType(lib, tankType)
      ensures ok ==> tanks[|tanks| - 1].initialAmount == if editor then Clamp01(amount) else 0.0
      ensures |tanks| >= |old(tanks)| && tanks[..|old(tanks)|] == old(tanks)
      ensures forall t :: t in tanks ==> t in old(tanks) || fresh(t)
      ensures maxId >= old(maxId)
    {
      if !HaveTankType(lib, tankType) {
        return false;
      }
      if !force {
        if !addRemove {
          return false;
        }
        ok := CheckValidators(validators, tankType, vol);
        if !ok {
          return false;
        }
      }
      CreateTank(tankType, vol, res, amount, lib, editor, partVolume);
      ok := true;
    }

    /** The successful part of `AddTank`: create the tank, register it with
        all others, append it and drop the caches. */
    method CreateTank(tankType: string, vol: real, res: string, amount: real, lib: Library, editor: bool, partVolume: real)
      requires Valid() && Loaded(lib)
      modifies this, tanks`otherTanks, part
      ensures Valid() && CachesInvalid()
      ensures |tanks| == |old(tanks)| + 1 && tanks[..|old(tanks)|] == old(tanks)
      ensures fresh(tanks[|tanks| - 1]) && tanks[|tanks| - 1].id == old(maxId) + 1 == maxId
      ensures forall t :: t in tanks ==> t in old(tanks) || fresh(t)
      ensures tanks[|tanks| - 1].volume == (if vol < 0.0 then partVolume else vol)
      ensures Used() == old(Used()) + tanks[|tanks| - 1].volume
      ensures tankType != "" ==>
                tanks[|tanks| - 1].tankTypeName == tankType && tanks[|tanks| - 1].tankType == GetTankType(lib, tankType)
      ensures tanks[|tanks| - 1].initialAmount == if editor then Clamp01(amount) else 0.0
    {
      var tank := NewTank(tankType, vol, res, amount, lib, editor, partVolume);
      AppendTank(tank);
    }

    /** `AddConfiguration`: refused unless forced or adding is enabled, and
        unless the configuration is valid; otherwise each tank volume of it
        is added, and each sub-configuration recursively, with its share of
        the volume (the shares add up to the volume, `SharesSum`). */
    method AddConfiguration(cfg: Volume, vol: real, force: bool, addRemove: bool,
                            validators: seq<(string, real) -> string>, lib: Library, editor: bool, partVolume: real)
      returns (ok: bool)
      requires Valid() && Loaded(lib)
      modifies this, tanks`otherTanks, part
      ensures Valid()
      ensures ok <==> (force || addRemove) && ValidConfiguration(cfg)
      ensures !ok ==> tanks == old(tanks) && part.resources == old(part.resources)
      ensures |tanks| >= |old(tanks)| && tanks[..|old(tanks)|] == old(tanks)
      ensures forall t :: t in tanks ==> t in old(tanks) || fresh(t)
      ensures maxId >= old(maxId)
      decreases cfg, 0
    {
      if !((force || addRemove) && ValidConfiguration(cfg)) {
        return false;
      }
      var total := TotalVolume(cfg.volumes);
      var k := 0;
      while k < |cfg.volumes|
        invariant 0 <= k <= |cfg.volumes|
        invariant Valid()
        invariant |tanks| >= |old(tanks)| && tanks[..|old(tanks)|] == old(tanks)
        invariant forall t :: t in tanks ==> t in old(tanks) || fresh(t)
        invariant maxId >= old(maxId)
      {
        ghost var before := tanks;
        assert forall i :: 0 <= i < |tanks| ==> tanks[i] in old(tanks) || fresh(tanks[i]);
        AddChild(cfg.volumes[k], Share(vol, cfg.volumes[k].volume, total), force, addRemove, validators, lib, editor, partVolume);
        assert tanks[..|old(tanks)|] == before[..|old(tanks)|];
        k := k + 1;
      }
      ok := true;
    }

    /** One member of a configuration: a tank volume becomes a tank, a
        sub-configuration is added recursively, the base volume adds
        nothing. */
    method AddChild(v: Volume, vol: real, force: bool, addRemove: bool,
                    validators: seq<(string, real) -> string>, lib: Library, editor: bool, partVolume: real)
      requires Valid() && Loaded(lib)
      modifies this, tanks`otherTanks, part
      ensures Valid()
      ensures |tanks| >= |old(tanks)| && tanks[..|old(tanks)|] == old(tanks)
      ensures forall t :: t in tanks ==> t in old(tanks) || fresh(t)
      ensures maxId >= old(maxId)
      decreases v, 1
    {
      match v {
        case TankVolume(_, t, r, a) =>
          var added := AddTank(t, vol, r, a, force, addRemove, validators, lib, editor, partVolume);
        case Configuration(_, _, _) =>
          var added := AddConfiguration(v, vol, force, addRemove, validators, lib, editor, partVolume);
        case BaseVolume(_) =>
      }
    }

    /** `tanks.ForEach(t => t.UnregisterOtherTank(tank))` once the tank has
        left the list. */
    method UnregisterFromAll(tank: SwitchableTank, ghost pos: map<SwitchableTank, nat>)
      requires AllValid(tanks, part) && RegisteredAll(tanks) && Indexed(tanks, pos) && tank !in tanks
      modifies tanks`otherTanks
      ensures forall i :: 0 <= i < |tanks| ==> tanks[i].otherTanks == RemoveFirst(old(tanks[i].otherTanks), tank)
      ensures forall i :: 0 <= i < |tanks| ==> tank !in tanks[i].otherTanks
      ensures AllValid(tanks, part) && RegisteredAll(tanks)
      ensures VolumesOf(tanks) == old(VolumesOf(tanks))
    {
      var k := 0;
      while k < |tanks|
        invariant 0 <= k <= |tanks|
        invariant forall i :: 0 <= i < k ==> tanks[i].otherTanks == RemoveFirst(old(tanks[i].otherTanks), tank)
        invariant forall i :: k <= i < |tanks| ==> tanks[i].otherTanks == old(tanks[i].otherTanks)
      {
        var removed := tanks[k].UnregisterOtherTank(tank);
        k := k + 1;
      }
      RegistriesShrinkKeepValid(tanks, part, tank);
      UnregisteredAll(tanks, tank);
      assert VolumesOf(tanks) == old(VolumesOf(tanks));
    }

    /** `tanks.Remove(tank)` for the tank at position `k`: the list is cut
        there and keeps its invariants. */
    method Detach(tank: SwitchableTank, ghost k: nat)
      requires Structure() && k < |tanks| && tanks[k] == tank
      modifies this`tanks
      ensures tanks == RemoveFirst(old(tanks), old(tanks[k])) == old(tanks[..k] + tanks[k + 1..])
      ensures old(tanks[k]) !in tanks
      ensures AllValid(tanks, part) && IdsBelow(tanks, maxId) && RegisteredAll(tanks) && ResourcesDistinct(tanks)
      ensures Used() == old(Used()) - old(tanks[k].volume)
    {
      ghost var rest := tanks[..k] + tanks[k + 1..];
      RemoveAtAll(tanks, k, maxId, part);
      tanks := RemoveFirst(tanks, tank);
      assert tanks == rest;
    }

    /** The end of `RemoveTank`: the tank leaves the list and every other
        tank's registry, and the caches are dropped. */
    method DropTank(tank: SwitchableTank, ghost k: nat)
      requires Structure() && k < |tanks| && tanks[k] == tank
      modifies this`tanks, this`tanksVolume, this`availableVolume, this`availableVolumePercent, tanks`otherTanks
      ensures Valid() && CachesInvalid()
      ensures tanks == RemoveFirst(old(tanks), tank) && tank !in tanks && tank.resource == old(tank.resource)
      ensures forall i :: 0 <= i < |tanks| ==> tank !in tanks[i].otherTanks
      ensures Used() == old(Used()) - old(tank.volume)
    {
      Detach(tank, k);
      ghost var pos := IdsPositions(tanks, maxId);
      Unlink(tank, pos);
    }

    /** The other tanks forget a tank that has left the list, and the
        caches are dropped. */
    method Unlink(tank: SwitchableTank, ghost pos: map<SwitchableTank, nat>)
      requires AllValid(tanks, part) && IdsBelow(tanks, maxId) && RegisteredAll(tanks) && ResourcesDistinct(tanks)
      requires Indexed(tanks, pos) && tank !in tanks
      modifies this`tanksVolume, this`availableVolume, this`availableVolumePercent, tanks`otherTanks
      ensures Structure() && CachesValid() && CachesInvalid()
      ensures forall i :: 0 <= i < |tanks| ==> tank !in tanks[i].otherTanks
      ensures Used() == old(Used())
    {
      ghost var used := Used();
      UnregisterFromAll(tank, pos);
      assert IdsIncreasing() && DistinctResources();
      assert Structure() && Used() == used;
      InvalidateCaches();
    }

    twostate lemma ReleaseKeepsValid(k: int)
      requires old(allocated(part)) && 0 <= k < |tanks| && tanks == old(tanks) && old(AllValid(tanks, part)) && tanks[k].Valid()
      requires forall i :: 0 <= i < |tanks| && i != k && old(tanks[i].resource).Some? ==> old(tanks[i].resource) != old(tanks[k].resource)
      requires forall i :: 0 <= i < |tanks| ==> tanks[i].otherTanks == old(tanks[i].otherTanks)
      requires forall i :: 0 <= i < |tanks| && i != k ==> tanks[i].resource == old(tanks[i].resource)
      requires part.resources == old(part.resources) || (old(tanks[k].resource).Some? && part.resources == old(part.resources) - {old(tanks[k].resource).value})
      ensures AllValid(tanks, part)
    {
      forall i | 0 <= i < |tanks|
        ensures tanks[i].part == part && tanks[i].Valid()
      {
        assert old(tanks[i].Valid());
      }
    }

    /** `RemoveTank`: refused when removing is disabled, the tank is not
        this manager's, or its resource cannot be removed; otherwise the tank
        leaves the list and every other tank's registry. */
    method RemoveTank(tank: SwitchableTank, addRemove: bool, editor: bool) returns (ok: bool)
      requires Valid()
      modifies this`tanks, this`tanksVolume, this`availableVolume, this`availableVolumePercent, tank`currentResource, tank`tankTypeName, tank`resource,
        tanks`otherTanks, part
      ensures Valid()
      ensures ok <==>
                addRemove && tank in old(tanks) &&
                old(tank.resource.None? || editor || part.resources[tank.resource.value].amount <= 0.0)
      ensures !ok ==> tanks == old(tanks) && part.resources == old(part.resources)
      ensures ok ==> tanks == RemoveFirst(old(tanks), tank) && tank !in tanks && tank.resource.None?
      ensures ok ==> forall i :: 0 <= i < |tanks| ==> tank !in tanks[i].otherTanks
      ensures ok && old(tank.resource).Some? ==> part.resources == old(part.resources) - {old(tank.resource).value}
      ensures ok ==> Used() == old(Used()) - old(tank.volume)
      ensures ok ==> CachesInvalid()
    {
      if !addRemove || tank !in tanks {
        return false;
      }
      ghost var k := PositionOf(tanks, tank);
      var removed := Release(tank, editor, k);
      if !removed {
        return false;
      }
      DropTank(tank, k);
      ok := true;
    }

    /** The tank at position `k` gives its resource back to the part,
        when it may (`TryRemoveResource`); the list stays valid. */
    method Release(tank: SwitchableTank, editor: bool, ghost k: nat) returns (removed: bool)
      requires Valid() && k < |tanks| && tanks[k] == tank
      modifies tank`currentResource, tank`tankTypeName, tank`resource, part
      ensures Valid()
      ensures removed <==> old(tank.resource.None? || editor || part.resources[tank.resource.value].amount <= 0.0)
      ensures removed ==> tank.resource.None? && part.resources == old(if tank.resource.Some? then part.resources - {tank.resource.value} else part.resources)
      ensures !removed ==> part.resources == old(part.resources)
      ensures Used() == old(Used())
    {
      ghost var vols := VolumesOf(tanks);
      ResourceOnlyAt(tanks, k);
      removed := tank.TryRemoveResource(editor);
      assert TanksValid() by {
        ReleaseKeepsValid(k);
      }
      assert DistinctResources() by {
        ResourcesDropped(tanks);
      }
      assert IdsIncreasing() && Registered();
      assert VolumesOf(tanks) == vols by {
        SameElements(VolumesOf(tanks), vols);
      }
    }

    /** `Load` of a save that is not a managed one (no `MANAGED` value): the
        list is cleared and the saved configuration is added at its own
        `Volume`, forced. */
    method LoadConfiguration(cfg: Volume, lib: Library, editor: bool, partVolume: real) returns (ok: bool)
      requires Valid() && Loaded(lib)
      modifies this, part
      ensures Valid()
      ensures ok <==> ValidConfiguration(cfg)
      ensures !ok ==> tanks == []
      ensures forall t :: t in tanks ==> fresh(t)
      ensures maxId >= old(maxId)
    {
      tanks := [];
      InvalidateCaches();
      ok := AddConfiguration(cfg, cfg.volume, true, false, [], lib, editor, partVolume);
    }

    /** The id handling of `Load` for a managed save, proved against
        `LoadedIds`: `saved` holds each TANK node's id (-1 when it has none)
        and `existing` the ids of the tank modules the part already has. */
    method LoadIdsAsWritten(saved: seq<int>, existing: set<int>) returns (ids: seq<int>)
      modifies this`maxId
      ensures (ids, maxId) == LoadedIds(saved, existing, old(maxId))
    {
      ids := [];
      var k := 0;
      while k < |saved|
        invariant 0 <= k <= |saved|
        invariant (ids, maxId) == LoadedIds(saved[..k], existing, old(maxId))
      {
        assert saved[..k + 1][..k] == saved[..k];
        var id := saved[k];
        if Reused(id, existing) {
          maxId := if maxId >= id then maxId else id;
          ids := ids + [id];
        } else {
          maxId := maxId + 1;
          ids := ids + [maxId];
        }
        k := k + 1;
      }
      assert saved[..k] == saved;
    }

    /** The id handling of `Load` as meant: `max_id` is first raised to the
        largest id kept, so the ids handed out afterwards are new. */
    method LoadIds(saved: seq<int>, existing: set<int>) returns (ids: seq<int>)
      modifies this`maxId
      ensures (ids, maxId) == LoadedIds(saved, existing, MaxReused(saved, existing, old(maxId)))
    {
      var k := 0;
      while k < |saved|
        invariant 0 <= k <= |saved|
        invariant maxId == MaxReused(saved[..k], existing, old(maxId))
      {
        assert saved[..k + 1][..k] == saved[..k];
        if Reused(saved[k], existing) && saved[k] > maxId {
          maxId := saved[k];
        }
        k := k + 1;
      }
      assert saved[..k] == saved;
      ids := LoadIdsAsWritten(saved, existing);
    }

    /** `AddVolume`: refused when adding is disabled; a name the
        configuration library knows adds that configuration, any other name
        a tank of that type with no resource. */
    method AddVolume(name: string, vol: real, addRemove: bool, validators: seq<(string, real) -> string>,
                     lib: Library, configs: VolumeConfigsLibrary, editor: bool, partVolume: real)
      returns (ok: bool)
      requires Valid() && Loaded(lib)
      modifies this, tanks`otherTanks, part
      ensures Valid()
      ensures !addRemove ==> !ok
      ensures addRemove && configs.GetConfig(name).None? ==>
                (ok <==> HaveTankType(lib, name) && Accepted(validators, name, vol))
      ensures addRemove && configs.GetConfig(name).Some? ==>
                (ok <==> ValidConfiguration(configs.GetConfig(name).value))
      ensures !ok ==> tanks == old(tanks) && part.resources == old(part.resources)
      ensures ok && configs.GetConfig(name).None? ==>
                && |tanks| == |old(tanks)| + 1 && tanks[..|old(tanks)|] == old(tanks)
                && tanks[|tanks| - 1].volume == (if vol < 0.0 then partVolume else vol)
                && (name != "" ==> tanks[|tanks| - 1].tankTypeName == name
                                   && tanks[|tanks| - 1].tankType == GetTankType(lib, name))
    {
      if !addRemove {
        return false;
      }
      var cfg := configs.GetConfig(name);
      if cfg.None? {
        ok := AddTank(name, vol, "", 0.0, false, addRemove, validators, lib, editor, partVolume);
      } else {
        ok := AddConfiguration(cfg.value, vol, false, addRemove, validators, lib, editor, partVolume);
      }
    }
  }

  // ---------------------------------------------------------------------
  // Tank ids of a managed save
  // ---------------------------------------------------------------------

  /** A saved id that names a tank module of the part is kept. */
  predicate Reused(id: int, existing: set<int>)
  {
    id >= 0 && id in existing
  }

  /** The ids `Load` gives the saved tank nodes, and the final `max_id`,
      starting from `max_id` = `m`. */
  function LoadedIds(saved: seq<int>, existing: set<int>, m: int): (r: (seq<int>, int))
    ensures |r.0| == |saved|
  {
    if |saved| == 0 then ([], m)
    else
      var (ids, top) := LoadedIds(saved[..|saved| - 1], existing, m);
      var id := saved[|saved| - 1];
      if Reused(id, existing) then (ids + [id], if top >= id then top else id)
      else (ids + [top + 1], top + 1)
  }

  /** `max_id` raised to the largest kept id. */
  function MaxReused(saved: seq<int>, existing: set<int>, m: int): (r: int)
    ensures r >= m
    ensures forall i :: 0 <= i < |saved| && Reused(saved[i], existing) ==> saved[i] <= r
  {
    if |saved| == 0 then m
    else
      var top := MaxReused(saved[..|saved| - 1], existing, m);
      var id := saved[|saved| - 1];
      if Reused(id, existing) && id > top then id else top
  }

  /** What `Load` promises about the ids: `max_id` never decreases and
      bounds every id; a kept id is the saved one; a new id exceeds the
      starting `max_id` and every id handed out before it. */
  lemma {:induction false} LoadedIdsBounds(saved: seq<int>, existing: set<int>, m: int)
    ensures var (ids, top) := LoadedIds(saved, existing, m);
      && top >= m
      && (forall i :: 0 <= i < |saved| ==> ids[i] <= top)
      && (forall i :: 0 <= i < |saved| && Reused(saved[i], existing) ==> ids[i] == saved[i])
      && (forall i :: 0 <= i < |saved| && !Reused(saved[i], existing) ==>
            ids[i] > m && forall j :: 0 <= j < i ==> ids[j] < ids[i])
  {
    if |saved| > 0 {
      LoadedIdsBounds(saved[..|saved| - 1], existing, m);
    }
  }

  /** A node whose saved id names no module comes first and gets 0, then a
      node keeping id 0 gets it too: two tanks with one id. */
  lemma LoadedIdsCollide()
    ensures LoadedIds([7, 0], {0}, -1).0 == [0, 0]
  {
    assert [7, 0][..1] == [7];
    assert [7][..0] == [];
  }

  /** With `max_id` first raised to the largest kept id, the ids are
      distinct as long as the kept saved ids are. */
  lemma LoadedIdsDistinct(saved: seq<int>, existing: set<int>, m: int)
    requires forall i, j :: 0 <= i < j < |saved| && Reused(saved[i], existing) ==> saved[j] != saved[i]
    ensures NoDuplicates(LoadedIds(saved, existing, MaxReused(saved, existing, m)).0)
  {
    var m0 := MaxReused(saved, existing, m);
    var ids := LoadedIds(saved, existing, m0).0;
    LoadedIdsBounds(saved, existing, m0);
    forall i, j | 0 <= i < j < |ids|
      ensures ids[i] != ids[j]
    {
    }
    DistinctFromPairs(ids);
  }
}
