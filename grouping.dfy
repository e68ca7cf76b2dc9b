/**
 * Grouping values by a key, as the analyzers do with Python dictionaries filled in
 * a loop: which keys appear and in what order, which values land under each key,
 * and the fact that the groups together hold every value exactly once.
 */
module Grouping {
  import opened Numeric

  predicate Distinct<K(==)>(s: seq<K>)
  {
    forall i, j :: 0 <= i < j < |s| ==> s[i] != s[j]
  }

  /** The keys of `ks` in the order a dictionary first meets them: the iteration order
      of a Python dict filled by walking `ks`. */
  function FirstSeen<K(==)>(ks: seq<K>): (r: seq<K>)
    ensures Distinct(r)
    ensures forall i :: 0 <= i < |ks| ==> ks[i] in r
    ensures forall i :: 0 <= i < |r| ==> r[i] in ks
  {
    if ks == [] then []
    else
      var seen := FirstSeen(ks[..|ks| - 1]);
      var k := ks[|ks| - 1];
      assert forall i :: 0 <= i < |ks| - 1 ==> ks[i] == ks[..|ks| - 1][i];
      if k in seen then seen else seen + [k]
  }

  /** The values whose key is `k`, in their original order: what the loop appends to
      (or adds into) the dictionary entry for `k`. */
  function Select<K(==), V>(ks: seq<K>, vs: seq<V>, k: K): (r: seq<V>)
    requires |ks| == |vs|
    ensures |r| <= |vs|
  {
    if ks == [] then []
    else
      var n := |ks| - 1;
      Select(ks[..n], vs[..n], k) + (if ks[n] == k then [vs[n]] else [])
  }

  /** The sum of every group's total, the groups taken in the order of `groups`. */
  function SumOver<K(==)>(groups: seq<K>, ks: seq<K>, vs: seq<int>): int
    requires |ks| == |vs|
  {
    if groups == [] then 0
    else SumOver(groups[..|groups| - 1], ks, vs) + Sum(Select(ks, vs, groups[|groups| - 1]))
  }

  /** The number of values in all the groups together. */
  function CountOver<K(==), V>(groups: seq<K>, ks: seq<K>, vs: seq<V>): int
    requires |ks| == |vs|
  {
    if groups == [] then 0
    else CountOver(groups[..|groups| - 1], ks, vs) + |Select(ks, vs, groups[|groups| - 1])|
  }

  /** When the groups are distinct and cover every key, each value lies in exactly one
      group: the group totals add up to the grand total and the group sizes to the
      number of values. */
  lemma {:induction false} Partition<K>(groups: seq<K>, ks: seq<K>, vs: seq<int>)
    requires |ks| == |vs| && Distinct(groups)
    requires forall i :: 0 <= i < |ks| ==> ks[i] in groups
    ensures SumOver(groups, ks, vs) == Sum(vs)
    ensures CountOver(groups, ks, vs) == |vs|
    decreases |ks|
  {
    if ks == [] {
      EmptyGroups(groups, ks, vs);
    } else {
      var n := |ks| - 1;
      Partition(groups, ks[..n], vs[..n]);
      AddToOneGroup(groups, ks[..n], vs[..n], ks[n], vs[n]);
      SplitLast(ks);
      SplitLast(vs);
    }
  }

  lemma {:induction false} EmptyGroups<K>(groups: seq<K>, ks: seq<K>, vs: seq<int>)
    requires |ks| == |vs| == 0
    ensures SumOver(groups, ks, vs) == 0 && CountOver(groups, ks, vs) == 0
    decreases |groups|
  {
    if groups != [] {
      EmptyGroups(groups[..|groups| - 1], ks, vs);
    }
  }

  /** Appending one keyed value adds it to the one group with that key, if any. */
  lemma {:induction false} AddToOneGroup<K>(groups: seq<K>, ks: seq<K>, vs: seq<int>, k: K, v: int)
    requires |ks| == |vs| && Distinct(groups)
    ensures SumOver(groups, ks + [k], vs + [v]) == SumOver(groups, ks, vs) + (if k in groups then v else 0)
    ensures CountOver(groups, ks + [k], vs + [v]) == CountOver(groups, ks, vs) + (if k in groups then 1 else 0)
    decreases |groups|
  {
    if groups != [] {
      var m := |groups| - 1;
      var g := groups[m];
      var ks', vs' := ks + [k], vs + [v];
      AddToOneGroup(groups[..m], ks, vs, k, v);
      GroupGains(ks, vs, k, v, g);
      assert SumOver(groups, ks', vs') == SumOver(groups[..m], ks', vs') + Sum(Select(ks', vs', g));
      assert SumOver(groups, ks, vs) == SumOver(groups[..m], ks, vs) + Sum(Select(ks, vs, g));
      assert CountOver(groups, ks', vs') == CountOver(groups[..m], ks', vs') + |Select(ks', vs', g)|;
      assert CountOver(groups, ks, vs) == CountOver(groups[..m], ks, vs) + |Select(ks, vs, g)|;
      assert k in groups <==> k in groups[..m] || k == g by {
        assert groups == groups[..m] + [g];
      }
      assert k == g ==> k !in groups[..m];
    }
  }

  /** Appending one keyed value adds it to the group of its own key only. */
  lemma GroupGains<K>(ks: seq<K>, vs: seq<int>, k: K, v: int, g: K)
    requires |ks| == |vs|
    ensures Sum(Select(ks + [k], vs + [v], g)) == Sum(Select(ks, vs, g)) + (if k == g then v else 0)
    ensures |Select(ks + [k], vs + [v], g)| == |Select(ks, vs, g)| + (if k == g then 1 else 0)
  {
    var ks', vs' := ks + [k], vs + [v];
    assert ks'[..|ks|] == ks && vs'[..|vs|] == vs;
    var before := Select(ks, vs, g);
    if k == g {
      assert Select(ks', vs', g) == before + [v];
      assert (before + [v])[..|before|] == before;
    } else {
      assert Select(ks', vs', g) == before + [];
      assert before + [] == before;
    }
  }

  /** A key that occurs nowhere selects nothing. */
  lemma {:induction false} SelectAbsent<K, V>(ks: seq<K>, vs: seq<V>, k: K)
    requires |ks| == |vs|
    requires forall i :: 0 <= i < |ks| ==> ks[i] != k
    ensures Select(ks, vs, k) == []
    decreases |ks|
  {
    if ks != [] {
      SelectAbsent(ks[..|ks| - 1], vs[..|vs| - 1], k);
    }
  }

  /** A key that occurs selects at least its own value. */
  lemma {:induction false} SelectPresent<K, V>(ks: seq<K>, vs: seq<V>, k: K)
    requires |ks| == |vs| && k in ks
    ensures Select(ks, vs, k) != []
    decreases |ks|
  {
    var n := |ks| - 1;
    if ks[n] != k {
      assert k in ks[..n] by {
        var i :| 0 <= i < |ks| && ks[i] == k;
        assert ks[..n][i] == k;
      }
      SelectPresent(ks[..n], vs[..n], k);
    }
  }

  /** The dictionary `{k: [v, ...]}` that appending each value to its key's list builds. */
  function GroupLists<K(==, !new), V>(ks: seq<K>, vs: seq<V>): (g: map<K, seq<V>>)
    requires |ks| == |vs|
    ensures forall k :: k in g <==> k in ks
  {
    map k | k in ks :: Select(ks, vs, k)
  }

  /** One turn of a loop that groups values into lists: a new key gets an empty list and
      joins the insertion order, then the value is appended to its key's list. */
  lemma GroupListsStep<K(!new), V>(ks: seq<K>, vs: seq<V>, k: K, v: V,
                                   g: map<K, seq<V>>, order: seq<K>, g': map<K, seq<V>>, order': seq<K>)
    requires |ks| == |vs| && g == GroupLists(ks, vs) && order == FirstSeen(ks)
    requires order' == if k in g then order else order + [k]
    requires var g0 := if k in g then g else g[k := []];
      g' == g0[k := g0[k] + [v]]
    ensures g' == GroupLists(ks + [k], vs + [v]) && order' == FirstSeen(ks + [k])
  {
    AppendStep(ks, vs, k, v);
    assert (ks + [k])[..|ks|] == ks;
    assert k in g <==> k in FirstSeen(ks);
  }

  /** One more keyed value: create the key's empty list if it is new, then append. */
  lemma AppendStep<K(!new), V>(ks: seq<K>, vs: seq<V>, k: K, v: V)
    requires |ks| == |vs|
    ensures var g := GroupLists(ks, vs);
      var g0 := if k in g then g else g[k := []];
      GroupLists(ks + [k], vs + [v]) == g0[k := g0[k] + [v]]
  {
    var g := GroupLists(ks, vs);
    var g0 := if k in g then g else g[k := []];
    var ks', vs' := ks + [k], vs + [v];
    assert ks'[..|ks|] == ks && vs'[..|vs|] == vs;
    if k !in g {
      SelectAbsent(ks, vs, k);
    }
    forall j | j in ks'
      ensures Select(ks', vs', j) == g0[k := g0[k] + [v]][j]
    {
      if j != k {
        assert j in ks by {
          var i :| 0 <= i < |ks'| && ks'[i] == j;
          assert ks[i] == j;
        }
        assert Select(ks', vs', j) == Select(ks, vs, j) + [];
      }
    }
  }

  /** The values of the lists taken in the order of `groups`, one list after another. */
  function Flatten<K, V>(groups: seq<K>, lists: map<K, seq<V>>): seq<V>
    requires forall i :: 0 <= i < |groups| ==> groups[i] in lists
  {
    if groups == [] then []
    else Flatten(groups[..|groups| - 1], lists) + lists[groups[|groups| - 1]]
  }

  /** Flattening distinct groups that cover every key gives back every value exactly once
      (the same values, each as often), hence the same total and the same count. */
  lemma FlattenPartition<K(!new)>(groups: seq<K>, ks: seq<K>, vs: seq<int>)
    requires |ks| == |vs| && Distinct(groups)
    requires forall i :: 0 <= i < |groups| ==> groups[i] in ks
    requires forall i :: 0 <= i < |ks| ==> ks[i] in groups
    ensures multiset(Flatten(groups, GroupLists(ks, vs))) == multiset(vs)
    ensures Sum(Flatten(groups, GroupLists(ks, vs))) == Sum(vs)
    ensures |Flatten(groups, GroupLists(ks, vs))| == |vs|
  {
    FlattenIsSumOver(groups, ks, vs);
    Partition(groups, ks, vs);
    FlattenIsBagOver(groups, ks, vs);
    PartitionBag(groups, ks, vs);
  }

  /** The values of all the groups together, as a bag. */
  function BagOver<K(==), V>(groups: seq<K>, ks: seq<K>, vs: seq<V>): multiset<V>
    requires |ks| == |vs|
  {
    if groups == [] then multiset{}
    else BagOver(groups[..|groups| - 1], ks, vs) + multiset(Select(ks, vs, groups[|groups| - 1]))
  }

  /** When the groups are distinct and cover every key, the groups together hold exactly
      the values, each as often as it occurs. */
  lemma {:induction false} PartitionBag<K, V>(groups: seq<K>, ks: seq<K>, vs: seq<V>)
    requires |ks| == |vs| && Distinct(groups)
    requires forall i :: 0 <= i < |ks| ==> ks[i] in groups
    ensures BagOver(groups, ks, vs) == multiset(vs)
    decreases |ks|
  {
    if ks == [] {
      EmptyBag(groups, ks, vs);
    } else {
      var n := |ks| - 1;
      PartitionBag(groups, ks[..n], vs[..n]);
      BagOverLast(groups, ks, vs);
      SplitLast(vs);
    }
  }

  /** The last keyed value lands in the bag of its group. */
  lemma BagOverLast<K, V>(groups: seq<K>, ks: seq<K>, vs: seq<V>)
    requires |ks| == |vs| > 0 && Distinct(groups) && ks[|ks| - 1] in groups
    ensures BagOver(groups, ks, vs) == BagOver(groups, ks[..|ks| - 1], vs[..|vs| - 1]) + multiset{vs[|vs| - 1]}
  {
    var n := |ks| - 1;
    SplitLast(ks);
    SplitLast(vs);
    AddToOneBag(groups, ks[..n], vs[..n], ks[n], vs[n]);
  }

  /** A non-empty sequence is its front followed by its last element. */
  lemma SplitLast<T>(s: seq<T>)
    requires s != []
    ensures s[..|s| - 1] + [s[|s| - 1]] == s
  {
  }

  lemma {:induction false} EmptyBag<K, V>(groups: seq<K>, ks: seq<K>, vs: seq<V>)
    requires |ks| == |vs| == 0
    ensures BagOver(groups, ks, vs) == multiset{}
    decreases |groups|
  {
    if groups != [] {
      EmptyBag(groups[..|groups| - 1], ks, vs);
    }
  }

  /** Appending one keyed value puts it in the one group with that key, if any. */
  lemma {:induction false} AddToOneBag<K, V>(groups: seq<K>, ks: seq<K>, vs: seq<V>, k: K, v: V)
    requires |ks| == |vs| && Distinct(groups)
    ensures BagOver(groups, ks + [k], vs + [v])
         == BagOver(groups, ks, vs) + (if k in groups then multiset{v} else multiset{})
    decreases |groups|
  {
    if groups != [] {
      var m := |groups| - 1;
      var g := groups[m];
      var ks', vs' := ks + [k], vs + [v];
      var rest, mine := BagOver(groups[..m], ks, vs), multiset(Select(ks, vs, g));
      var rest', mine' := BagOver(groups[..m], ks', vs'), multiset(Select(ks', vs', g));
      var addRest := if k in groups[..m] then multiset{v} else multiset{};
      var addMine := if k == g then multiset{v} else multiset{};
      assert rest' == rest + addRest by {
        AddToOneBag(groups[..m], ks, vs, k, v);
      }
      assert mine' == mine + addMine by {
        BagGains(ks, vs, k, v, g);
      }
      assert BagOver(groups, ks, vs) == rest + mine;
      assert BagOver(groups, ks', vs') == rest' + mine';
      SplitAdded(groups, k, v);
      BagAddTwo(rest, mine, addRest, addMine);
    }
  }

  /** A key lies in distinct groups once at most: in the last one or in those before it. */
  lemma SplitAdded<K, V>(groups: seq<K>, k: K, v: V)
    requires groups != [] && Distinct(groups)
    ensures var m := |groups| - 1;
      (if k in groups then multiset{v} else multiset{})
      == (if k in groups[..m] then multiset{v} else multiset{})
       + (if k == groups[m] then multiset{v} else multiset{})
  {
    var m := |groups| - 1;
    assert k in groups <==> k in groups[..m] || k == groups[m] by {
      assert groups == groups[..m] + [groups[m]];
    }
    assert k == groups[m] ==> k !in groups[..m];
  }

  /** Bag algebra for one step: adding to two parts adds to their union. */
  lemma BagAddTwo<V>(rest: multiset<V>, mine: multiset<V>, a: multiset<V>, b: multiset<V>)
    ensures (rest + a) + (mine + b) == (rest + mine) + (a + b)
  {
  }

  /** Appending one keyed value adds it to the list of its own key only. */
  lemma BagGains<K, V>(ks: seq<K>, vs: seq<V>, k: K, v: V, g: K)
    requires |ks| == |vs|
    ensures multiset(Select(ks + [k], vs + [v], g))
         == multiset(Select(ks, vs, g)) + (if k == g then multiset{v} else multiset{})
  {
    var ks', vs' := ks + [k], vs + [v];
    assert ks'[..|ks|] == ks && vs'[..|vs|] == vs;
  }

  lemma {:induction false} FlattenIsBagOver<K(!new), V>(groups: seq<K>, ks: seq<K>, vs: seq<V>)
    requires |ks| == |vs|
    requires forall i :: 0 <= i < |groups| ==> groups[i] in ks
    ensures multiset(Flatten(groups, GroupLists(ks, vs))) == BagOver(groups, ks, vs)
    decreases |groups|
  {
    if groups != [] {
      FlattenIsBagOver(groups[..|groups| - 1], ks, vs);
    }
  }

  lemma {:induction false} FlattenIsSumOver<K(!new)>(groups: seq<K>, ks: seq<K>, vs: seq<int>)
    requires |ks| == |vs|
    requires forall i :: 0 <= i < |groups| ==> groups[i] in ks
    ensures Sum(Flatten(groups, GroupLists(ks, vs))) == SumOver(groups, ks, vs)
    ensures |Flatten(groups, GroupLists(ks, vs))| == CountOver(groups, ks, vs)
    decreases |groups|
  {
    if groups != [] {
      var n := |groups| - 1;
      FlattenIsSumOver(groups[..n], ks, vs);
      var g := GroupLists(ks, vs);
      SumConcat(Flatten(groups[..n], g), g[groups[n]]);
    }
  }
}
