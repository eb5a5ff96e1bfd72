/**
 * Swift's `Dictionary(grouping:by:)` followed by a `map` over the dictionary,
 * as the clustering code uses it: every element is filed under its key, the
 * elements of one group keep their original order, and each key appears once.
 *
 * Swift leaves the iteration order of a Dictionary unspecified; the model lists
 * the groups in the order their keys first appear, and everything proved here
 * about groups is independent of that order.
 */
module Grouping {

  /** An element together with the key it is grouped by. */
  datatype Keyed<T> = Keyed(key: string, item: T)

  /** One dictionary entry: a key and the elements filed under it. */
  datatype Group<T> = Group(key: string, members: seq<T>)

  /** Swift's `String(s.prefix(n))`: the first `n` characters, or all of `s` when it is shorter. */
  function Prefix(s: string, n: nat): (p: string)
    ensures |p| == (if |s| < n then |s| else n)
    ensures p <= s
  {
    if |s| <= n then s else s[..n]
  }

  function Items<T>(es: seq<Keyed<T>>): (xs: seq<T>)
    ensures |xs| == |es|
    ensures forall i :: 0 <= i < |es| ==> xs[i] == es[i].item
  {
    if es == [] then [] else Items(es[..|es| - 1]) + [es[|es| - 1].item]
  }

  predicate HasKey<T>(es: seq<Keyed<T>>, k: string) {
    exists i :: 0 <= i < |es| && es[i].key == k
  }

  predicate Distinct(ks: seq<string>) {
    forall i, j :: 0 <= i < j < |ks| ==> ks[i] != ks[j]
  }

  /** The keys of `es`, each once, in the order they first appear. */
  function DistinctKeys<T>(es: seq<Keyed<T>>): (ks: seq<string>)
    ensures Distinct(ks)
    ensures forall k :: k in ks <==> HasKey(es, k)
  {
    if es == [] then []
    else
      var init := es[..|es| - 1];
      var ks := DistinctKeys(init);
      assert forall k :: HasKey(init, k) ==> HasKey(es, k) by {
        forall k | HasKey(init, k) ensures HasKey(es, k) {
          var i :| 0 <= i < |init| && init[i].key == k;
          assert es[i].key == k;
        }
      }
      assert forall k :: HasKey(es, k) ==> HasKey(init, k) || k == es[|es| - 1].key by {
        forall k | HasKey(es, k) ensures HasKey(init, k) || k == es[|es| - 1].key {
          var i :| 0 <= i < |es| && es[i].key == k;
          if i < |es| - 1 { assert init[i].key == k; }
        }
      }
      if es[|es| - 1].key in ks then ks else ks + [es[|es| - 1].key]
  }

  /** The elements filed under `k`, in their original order. */
  function Members<T>(es: seq<Keyed<T>>, k: string): (ms: seq<T>)
    ensures forall j :: 0 <= j < |ms| ==> Keyed(k, ms[j]) in es
    ensures forall i :: 0 <= i < |es| && es[i].key == k ==> es[i].item in ms
  {
    if es == [] then []
    else
      var init := es[..|es| - 1];
      var last := es[|es| - 1];
      var ms := Members(init, k) + (if last.key == k then [last.item] else []);
      assert forall i :: 0 <= i < |init| ==> init[i] == es[i];
      ms
  }

  function GroupsFor<T>(ks: seq<string>, es: seq<Keyed<T>>): (gs: seq<Group<T>>)
    ensures |gs| == |ks|
    ensures forall i :: 0 <= i < |ks| ==> gs[i] == Group(ks[i], Members(es, ks[i]))
  {
    if ks == [] then [] else [Group(ks[0], Members(es, ks[0]))] + GroupsFor(ks[1..], es)
  }

  /**
   * `Dictionary(grouping: elements, by: key)`, listed entry by entry: one entry
   * per key present, holding the elements filed under that key.
   */
  function GroupBy<T>(es: seq<Keyed<T>>): (gs: seq<Group<T>>)
    ensures forall i, j :: 0 <= i < j < |gs| ==> gs[i].key != gs[j].key
    ensures forall k :: HasKey(es, k) <==> exists i :: 0 <= i < |gs| && gs[i].key == k
    ensures forall i :: 0 <= i < |gs| ==> gs[i].members == Members(es, gs[i].key)
  {
    var ks := DistinctKeys(es);
    var gs := GroupsFor(ks, es);
    assert forall k :: HasKey(es, k) ==> exists i :: 0 <= i < |gs| && gs[i].key == k by {
      forall k | HasKey(es, k) ensures exists i :: 0 <= i < |gs| && gs[i].key == k {
        var i :| 0 <= i < |ks| && ks[i] == k;
        assert gs[i].key == k;
      }
    }
    gs
  }

  /** All members of all groups, group after group. */
  function Flatten<T>(gs: seq<Group<T>>): seq<T> {
    if gs == [] then [] else gs[0].members + Flatten(gs[1..])
  }

  /** The sum of the group sizes. */
  function TotalCount<T>(gs: seq<Group<T>>): nat {
    if gs == [] then 0 else |gs[0].members| + TotalCount(gs[1..])
  }

  // ---- What grouping guarantees ----

  /**
   * One group per distinct key; every group is non-empty; a group holds exactly
   * the elements whose key is the group's key.
   */
  lemma GroupByShape<T>(es: seq<Keyed<T>>)
    ensures forall i, j :: 0 <= i < j < |GroupBy(es)| ==> GroupBy(es)[i].key != GroupBy(es)[j].key
    ensures forall k :: HasKey(es, k) <==> exists g :: g in GroupBy(es) && g.key == k
    ensures forall g :: g in GroupBy(es) ==> |g.members| > 0
    ensures forall g, j :: g in GroupBy(es) && 0 <= j < |g.members| ==> Keyed(g.key, g.members[j]) in es
    ensures forall g, i :: g in GroupBy(es) && 0 <= i < |es| && es[i].key == g.key ==> es[i].item in g.members
  {
    var ks := DistinctKeys(es);
    var gs := GroupBy(es);
    forall k | HasKey(es, k) ensures exists g :: g in gs && g.key == k {
      var i :| 0 <= i < |ks| && ks[i] == k;
      assert gs[i] in gs;
    }
    forall g | g in gs ensures |g.members| > 0 {
      var i :| 0 <= i < |gs| && gs[i] == g;
      assert g.key == ks[i] && g.key in ks;
      var e :| 0 <= e < |es| && es[e].key == g.key;
      assert es[e].item in g.members;
    }
  }

  lemma {:induction false} FlattenLength<T>(gs: seq<Group<T>>)
    ensures |Flatten(gs)| == TotalCount(gs)
  {
    if gs != [] { FlattenLength(gs[1..]); }
  }

  lemma {:induction false} FlattenAppend<T>(ks: seq<string>, k: string, es: seq<Keyed<T>>)
    ensures Flatten(GroupsFor(ks + [k], es)) == Flatten(GroupsFor(ks, es)) + Members(es, k)
  {
    if ks == [] {
      assert GroupsFor([k], es) == [Group(k, Members(es, k))];
      assert Flatten(GroupsFor([k], es)) == Members(es, k) + Flatten([]);
    } else {
      assert (ks + [k])[1..] == ks[1..] + [k];
      FlattenAppend(ks[1..], k, es);
    }
  }

  lemma {:induction false} MembersOfAbsentKey<T>(es: seq<Keyed<T>>, k: string)
    requires !HasKey(es, k)
    ensures Members(es, k) == []
  {
    if es != [] {
      var init := es[..|es| - 1];
      assert forall i :: 0 <= i < |init| ==> init[i] == es[i];
      MembersOfAbsentKey(init, k);
    }
  }

  /** Adding one element to the input adds it to the group of its key and nowhere else. */
  lemma {:induction false} FlattenSnoc<T>(ks: seq<string>, es: seq<Keyed<T>>, e: Keyed<T>)
    requires Distinct(ks)
    ensures multiset(Flatten(GroupsFor(ks, es + [e])))
         == multiset(Flatten(GroupsFor(ks, es))) + (if e.key in ks then multiset{e.item} else multiset{})
  {
    if ks != [] {
      var es' := es + [e];
      assert es'[..|es'| - 1] == es;
      assert Members(es', ks[0]) == Members(es, ks[0]) + (if e.key == ks[0] then [e.item] else []);
      FlattenSnoc(ks[1..], es, e);
      assert e.key in ks <==> e.key == ks[0] || e.key in ks[1..];
      assert e.key == ks[0] ==> e.key !in ks[1..];
    }
  }

  lemma GroupBySnoc<T>(es: seq<Keyed<T>>, e: Keyed<T>)
    ensures multiset(Flatten(GroupBy(es + [e]))) == multiset(Flatten(GroupBy(es))) + multiset{e.item}
  {
    var es' := es + [e];
    assert es'[..|es'| - 1] == es;
    var ks := DistinctKeys(es);
    FlattenSnoc(ks, es, e);
    if e.key !in ks {
      assert DistinctKeys(es') == ks + [e.key];
      FlattenAppend(ks, e.key, es');
      MembersOfAbsentKey(es, e.key);
      assert Members(es', e.key) == [e.item];
    }
  }

  /**
   * The groups partition the input: their members, taken together, are the
   * input's elements with nothing lost and nothing duplicated.
   */
  lemma {:induction false} GroupByPartitions<T>(es: seq<Keyed<T>>)
    ensures multiset(Flatten(GroupBy(es))) == multiset(Items(es))
  {
    if es != [] {
      var init := es[..|es| - 1];
      var e := es[|es| - 1];
      assert es == init + [e];
      GroupByPartitions(init);
      GroupBySnoc(init, e);
      assert Items(es) == Items(init) + [e.item];
    }
  }

  /** The group sizes add up to the number of elements grouped. */
  lemma GroupSizesSum<T>(es: seq<Keyed<T>>)
    ensures TotalCount(GroupBy(es)) == |es|
  {
    GroupByPartitions(es);
    FlattenLength(GroupBy(es));
    assert |multiset(Flatten(GroupBy(es)))| == |Flatten(GroupBy(es))|;
    assert |multiset(Items(es))| == |Items(es)|;
  }
}
