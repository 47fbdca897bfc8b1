/** The .NET `SortedList<string, V>` the libraries are kept in: a sequence of
    (key, value) pairs whose keys are strictly increasing in the ordinal
    string order (standing in for the culture-sensitive default comparer).
    `Add` inserts at the sorted position and fails on a
    duplicate key, the indexer replaces, `Remove` reports whether the key
    was there. */
module SortedLists {
  import opened Util

  type SortedList<V> = seq<(string, V)>

  ghost predicate Sorted<V>(s: SortedList<V>)
  {
    forall i, j :: 0 <= i < j < |s| ==> Less(s[i].0, s[j].0)
  }

  function Keys<V>(s: SortedList<V>): (ks: seq<string>)
    ensures |ks| == |s|
    ensures forall i :: 0 <= i < |s| ==> ks[i] == s[i].0
  {
    seq(|s|, i requires 0 <= i < |s| => s[i].0)
  }

  function Values<V>(s: SortedList<V>): (vs: seq<V>)
    ensures |vs| == |s|
    ensures forall i :: 0 <= i < |s| ==> vs[i] == s[i].1
  {
    seq(|s|, i requires 0 <= i < |s| => s[i].1)
  }

  predicate HasKey<V>(s: SortedList<V>, k: string)
  {
    k in Keys(s)
  }

  /** The position of key `k`, or -1 when it is absent. */
  function IndexOf<V>(s: SortedList<V>, k: string): (r: int)
    ensures -1 <= r < |s|
    ensures r == -1 <==> !HasKey(s, k)
    ensures r >= 0 ==> s[r].0 == k && forall j :: 0 <= j < r ==> s[j].0 != k
  {
    if |s| == 0 then -1
    else if s[0].0 == k then 0
    else
      var r := IndexOf(s[1..], k);
      assert forall j :: 0 <= j < |s| - 1 ==> Keys(s[1..])[j] == Keys(s)[j + 1];
      assert HasKey(s, k) <==> HasKey(s[1..], k) by {
        if HasKey(s, k) {
          var i :| 0 <= i < |s| && Keys(s)[i] == k;
          assert i > 0 && Keys(s[1..])[i - 1] == k;
        }
      }
      if r == -1 then -1 else r + 1
  }

  /** `TryGetValue`: the value stored under `k`. */
  function Get<V>(s: SortedList<V>, k: string): (r: Option<V>)
    ensures r.Some? <==> HasKey(s, k)
  {
    var i := IndexOf(s, k);
    if i < 0 then None else Some(s[i].1)
  }

  /** In a sorted list a key occurs once, so `Get` finds the pair at any index holding it. */
  lemma {:induction false} GetAt<V>(s: SortedList<V>, i: nat)
    requires Sorted(s) && i < |s|
    ensures Get(s, s[i].0) == Some(s[i].1)
    ensures IndexOf(s, s[i].0) == i
  {
    var j := IndexOf(s, s[i].0);
    assert Keys(s)[i] == s[i].0;
    if j != i {
      assert j < i;
      LessIrreflexive(s[i].0);
    }
  }

  lemma {:induction false} SortedTail<V>(s: SortedList<V>)
    requires Sorted(s) && |s| > 0
    ensures Sorted(s[1..])
  {
    assert forall i, j :: 0 <= i < j < |s| - 1 ==> s[1..][i] == s[i + 1] && s[1..][j] == s[j + 1];
  }

  lemma {:induction false} SortedKeysDistinct<V>(s: SortedList<V>, i: nat, j: nat)
    requires Sorted(s) && i < |s| && j < |s| && i != j
    ensures s[i].0 != s[j].0
  {
    if i < j { LessIrreflexive(s[j].0); } else { LessIrreflexive(s[i].0); }
  }

  /** Looking up past a first pair with another key is looking up in the rest. */
  lemma GetCons<V>(p: (string, V), t: SortedList<V>, x: string)
    ensures Get([p] + t, x) == if p.0 == x then Some(p.1) else Get(t, x)
    ensures HasKey([p] + t, x) <==> p.0 == x || HasKey(t, x)
  {
    var r := [p] + t;
    assert r[0] == p && r[1..] == t;
    var i := IndexOf(t, x);
    assert IndexOf(r, x) == if p.0 == x then 0 else if i == -1 then -1 else i + 1;
  }

  /** Every key of a sorted list after its first pair is greater than the first key. */
  lemma {:induction false} SortedCons<V>(p: (string, V), t: SortedList<V>)
    requires Sorted(t)
    requires forall x :: HasKey(t, x) ==> Less(p.0, x)
    ensures Sorted([p] + t)
  {
    var r := [p] + t;
    forall i, j | 0 <= i < j < |r| ensures Less(r[i].0, r[j].0) {
      if i == 0 {
        assert Keys(t)[j - 1] == r[j].0;
      } else {
        assert r[i] == t[i - 1] && r[j] == t[j - 1];
      }
    }
  }

  lemma {:induction false} SortedHead<V>(s: SortedList<V>, x: string)
    requires Sorted(s) && |s| > 0 && HasKey(s[1..], x)
    ensures Less(s[0].0, x)
  {
    var i :| 0 <= i < |s| - 1 && Keys(s[1..])[i] == x;
    assert s[i + 1].0 == x;
  }

  /** `SortedList.Add` for an absent key: insertion at the sorted position. */
  function Insert<V>(s: SortedList<V>, k: string, v: V): (r: SortedList<V>)
    requires Sorted(s) && !HasKey(s, k)
    ensures Sorted(r)
    ensures |r| == |s| + 1
    ensures forall x :: HasKey(r, x) <==> HasKey(s, x) || x == k
    ensures Get(r, k) == Some(v)
    ensures forall x :: x != k ==> Get(r, x) == Get(s, x)
    decreases |s|
  {
    if |s| == 0 then
      InsertFacts(s, k, v, []);
      [(k, v)]
    else if Less(k, s[0].0) then
      InsertFacts(s, k, v, []);
      [(k, v)] + s
    else
      SortedTail(s);
      GetCons(s[0], s[1..], k);
      assert s == [s[0]] + s[1..];
      var t := Insert(s[1..], k, v);
      InsertFacts(s, k, v, t);
      [s[0]] + t
  }

  lemma {:induction false} InsertFacts<V>(s: SortedList<V>, k: string, v: V, t: SortedList<V>)
    requires Sorted(s) && !HasKey(s, k)
    requires |s| > 0 && !Less(k, s[0].0) ==>
      && Sorted(t) && |t| == |s|
      && (forall x :: HasKey(t, x) <==> HasKey(s[1..], x) || x == k)
      && Get(t, k) == Some(v)
      && (forall x :: x != k ==> Get(t, x) == Get(s[1..], x))
    ensures var r := if |s| == 0 || Less(k, s[0].0) then [(k, v)] + s else [s[0]] + t;
      && Sorted(r)
      && (forall x :: HasKey(r, x) <==> HasKey(s, x) || x == k)
      && Get(r, k) == Some(v)
      && (forall x :: x != k ==> Get(r, x) == Get(s, x))
  {
    if |s| == 0 || Less(k, s[0].0) {
      var r := [(k, v)] + s;
      forall x | HasKey(s, x) ensures Less(k, x) {
        if |s| > 0 {
          assert s == [s[0]] + s[1..];
          GetCons(s[0], s[1..], x);
          if x != s[0].0 {
            SortedHead(s, x);
            LessTransitive(k, s[0].0, x);
          }
        }
      }
      SortedCons((k, v), s);
      forall x ensures Get(r, x) == (if x == k then Some(v) else Get(s, x)) && (HasKey(r, x) <==> HasKey(s, x) || x == k) {
        GetCons((k, v), s, x);
      }
    } else {
      var r := [s[0]] + t;
      assert s == [s[0]] + s[1..];
      GetCons(s[0], s[1..], k);
      LessTotal(k, s[0].0);
      forall x | HasKey(t, x) ensures Less(s[0].0, x) {
        if x != k { SortedHead(s, x); }
      }
      SortedCons(s[0], t);
      forall x ensures Get(r, x) == (if x == k then Some(v) else Get(s, x)) && (HasKey(r, x) <==> HasKey(s, x) || x == k) {
        GetCons(s[0], t, x);
        GetCons(s[0], s[1..], x);
      }
    }
  }

  /** The indexer setter: replace the value under a present key, otherwise add it. */
  function Put<V>(s: SortedList<V>, k: string, v: V): (r: SortedList<V>)
    requires Sorted(s)
    ensures Sorted(r)
    ensures forall x :: HasKey(r, x) <==> HasKey(s, x) || x == k
    ensures Get(r, k) == Some(v)
    ensures forall x :: x != k ==> Get(r, x) == Get(s, x)
    ensures HasKey(s, k) ==> |r| == |s|
    ensures !HasKey(s, k) ==> |r| == |s| + 1
    decreases |s|
  {
    if !HasKey(s, k) then Insert(s, k, v)
    else
      assert s == [s[0]] + s[1..];
      GetCons(s[0], s[1..], k);
      SortedTail(s);
      if s[0].0 == k then
        PutFacts(s, k, v, s[1..]);
        [(k, v)] + s[1..]
      else
        var t := Put(s[1..], k, v);
        PutFacts(s, k, v, t);
        [s[0]] + t
  }

  lemma {:induction false} PutFacts<V>(s: SortedList<V>, k: string, v: V, t: SortedList<V>)
    requires Sorted(s) && HasKey(s, k)
    requires s[0].0 == k ==> t == s[1..]
    requires s[0].0 != k ==>
      && Sorted(t)
      && (forall x :: HasKey(t, x) <==> HasKey(s[1..], x) || x == k)
      && Get(t, k) == Some(v)
      && (forall x :: x != k ==> Get(t, x) == Get(s[1..], x))
    ensures var r := if s[0].0 == k then [(k, v)] + t else [s[0]] + t;
      && Sorted(r)
      && (forall x :: HasKey(r, x) <==> HasKey(s, x) || x == k)
      && Get(r, k) == Some(v)
      && (forall x :: x != k ==> Get(r, x) == Get(s, x))
  {
    assert s == [s[0]] + s[1..];
    SortedTail(s);
    var p := if s[0].0 == k then (k, v) else s[0];
    var r := [p] + t;
    forall x | HasKey(t, x) ensures Less(p.0, x) {
      if s[0].0 == k || x != k { SortedHead(s, x); }
    }
    SortedCons(p, t);
    forall x ensures Get(r, x) == (if x == k then Some(v) else Get(s, x)) && (HasKey(r, x) <==> HasKey(s, x) || x == k) {
      GetCons(p, t, x);
      GetCons(s[0], s[1..], x);
    }
  }

  /** `SortedList.Remove`: the key's pair leaves the list; an absent key changes nothing. */
  function Remove<V>(s: SortedList<V>, k: string): (r: SortedList<V>)
    requires Sorted(s)
    ensures Sorted(r)
    ensures forall x :: HasKey(r, x) <==> HasKey(s, x) && x != k
    ensures forall x :: x != k ==> Get(r, x) == Get(s, x)
    ensures !HasKey(s, k) ==> r == s
    ensures HasKey(s, k) ==> |r| == |s| - 1
    decreases |s|
  {
    if !HasKey(s, k) then s
    else
      assert s == [s[0]] + s[1..];
      GetCons(s[0], s[1..], k);
      SortedTail(s);
      if s[0].0 == k then
        RemoveFacts(s, k, s[1..]);
        s[1..]
      else
        var t := Remove(s[1..], k);
        RemoveFacts(s, k, t);
        [s[0]] + t
  }

  lemma {:induction false} RemoveFacts<V>(s: SortedList<V>, k: string, t: SortedList<V>)
    requires Sorted(s) && HasKey(s, k)
    requires s[0].0 == k ==> t == s[1..]
    requires s[0].0 != k ==>
      && Sorted(t)
      && (forall x :: HasKey(t, x) <==> HasKey(s[1..], x) && x != k)
      && (forall x :: x != k ==> Get(t, x) == Get(s[1..], x))
    ensures var r := if s[0].0 == k then t else [s[0]] + t;
      && Sorted(r)
      && (forall x :: HasKey(r, x) <==> HasKey(s, x) && x != k)
      && (forall x :: x != k ==> Get(r, x) == Get(s, x))
  {
    assert s == [s[0]] + s[1..];
    SortedTail(s);
    if s[0].0 == k {
      forall x ensures (HasKey(t, x) <==> HasKey(s, x) && x != k) && (x != k ==> Get(t, x) == Get(s, x)) {
        GetCons(s[0], s[1..], x);
        if HasKey(t, x) { SortedHead(s, x); LessIrreflexive(k); }
      }
    } else {
      var r := [s[0]] + t;
      forall x | HasKey(t, x) ensures Less(s[0].0, x) {
        SortedHead(s, x);
      }
      SortedCons(s[0], t);
      forall x ensures (HasKey(r, x) <==> HasKey(s, x) && x != k) && (x != k ==> Get(r, x) == Get(s, x)) {
        GetCons(s[0], t, x);
        GetCons(s[0], s[1..], x);
      }
    }
  }

  /** The first key of a sorted list is its least. */
  lemma FirstIsLeast<V>(s: SortedList<V>, k: string)
    requires Sorted(s) && HasKey(s, k) && k != s[0].0
    ensures Less(s[0].0, k)
  {
  }

  // ---------------------------------------------------------------------
  // A property of every entry survives the updates
  // ---------------------------------------------------------------------

  ghost predicate AllEntries<V>(s: SortedList<V>, p: (string, V) -> bool)
  {
    forall i :: 0 <= i < |s| ==> p(s[i].0, s[i].1)
  }

  /** Every entry of an updated list is the new pair or an entry of the old one. */
  lemma EntryOrigin<V>(s: SortedList<V>, r: SortedList<V>, i: nat, k: string, v: V)
    requires Sorted(s) && Sorted(r) && i < |r|
    requires Get(r, k).Some? ==> Get(r, k) == Some(v)
    requires forall x :: x != k ==> Get(r, x) == Get(s, x)
    ensures r[i] == (k, v) || exists j :: 0 <= j < |s| && s[j] == r[i]
  {
    GetAt(r, i);
    var x := r[i].0;
    if x != k {
      var j := IndexOf(s, x);
      assert Get(s, x) == Some(r[i].1);
      assert s[j] == r[i];
    }
  }

  lemma InsertKeeps<V>(s: SortedList<V>, k: string, v: V, p: (string, V) -> bool)
    requires Sorted(s) && !HasKey(s, k) && AllEntries(s, p) && p(k, v)
    ensures AllEntries(Insert(s, k, v), p)
  {
    var r := Insert(s, k, v);
    forall i | 0 <= i < |r| ensures p(r[i].0, r[i].1) {
      EntryOrigin(s, r, i, k, v);
    }
  }

  lemma PutKeeps<V>(s: SortedList<V>, k: string, v: V, p: (string, V) -> bool)
    requires Sorted(s) && AllEntries(s, p) && p(k, v)
    ensures AllEntries(Put(s, k, v), p)
  {
    var r := Put(s, k, v);
    forall i | 0 <= i < |r| ensures p(r[i].0, r[i].1) {
      EntryOrigin(s, r, i, k, v);
    }
  }

  lemma RemoveKeeps<V>(s: SortedList<V>, k: string, p: (string, V) -> bool)
    requires Sorted(s) && AllEntries(s, p)
    ensures AllEntries(Remove(s, k), p)
  {
    var r := Remove(s, k);
    forall i | 0 <= i < |r| ensures p(r[i].0, r[i].1) {
      EntryOrigin(s, r, i, k, r[i].1);
    }
  }
}
