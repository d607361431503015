/**
 Stable grouping by key: groups in order of first appearance, each holding its members in input
 order. Both trace encoders group spans this way.
 */
module Grouping {
  import opened Prelude

  /** The distinct keys of a sequence, in order of first appearance. */
  function FirstSeen<T>(s: seq<T>, key: T -> string): seq<string> {
    if s == [] then []
    else
      var init := FirstSeen(s[..|s| - 1], key);
      var k := key(s[|s| - 1]);
      if k in init then init else init + [k]
  }

  /** The members with key `k`, in input order. */
  function Group<T>(s: seq<T>, key: T -> string, k: string): seq<T> {
    Filter(x => key(x) == k, s)
  }

  function GroupBy<T>(s: seq<T>, key: T -> string): seq<seq<T>> {
    var keys := FirstSeen(s, key);
    seq(|keys|, i requires 0 <= i < |keys| => Group(s, key, keys[i]))
  }

  ghost function KeySet<T>(s: seq<T>, key: T -> string): set<string> {
    set x | x in s :: key(x)
  }

  lemma {:induction false} FirstSeenKeys<T>(s: seq<T>, key: T -> string)
    ensures Distinct(FirstSeen(s, key))
    ensures forall k :: k in FirstSeen(s, key) <==> k in KeySet(s, key)
  {
    if s != [] {
      var init, last := s[..|s| - 1], s[|s| - 1];
      FirstSeenKeys(init, key);
      assert s == init + [last];
      assert KeySet(s, key) == KeySet(init, key) + {key(last)};
    }
  }

  /** `i` is the first position with key `k`. */
  ghost predicate FirstAt<T>(s: seq<T>, key: T -> string, k: string, i: nat) {
    i < |s| && key(s[i]) == k && forall j :: 0 <= j < i ==> key(s[j]) != k
  }

  lemma {:induction false} FirstPosition<T>(s: seq<T>, key: T -> string, k: string)
    requires k in KeySet(s, key)
    ensures exists i: nat :: FirstAt(s, key, k, i)
  {
    var init, last := s[..|s| - 1], |s| - 1;
    assert s == init + [s[last]];
    if k in KeySet(init, key) {
      FirstPosition(init, key, k);
      var i: nat :| FirstAt(init, key, k, i);
      assert FirstAt(s, key, k, i);
    } else {
      assert forall j :: 0 <= j < last ==> key(init[j]) in KeySet(init, key);
      assert FirstAt(s, key, k, last);
    }
  }

  /** Keys are listed in the order of their first positions. */
  lemma {:induction false} FirstSeenInOrder<T>(s: seq<T>, key: T -> string, a: nat, b: nat)
    requires a < b < |FirstSeen(s, key)|
    ensures exists i: nat, j: nat ::
              i < j && FirstAt(s, key, FirstSeen(s, key)[a], i) && FirstAt(s, key, FirstSeen(s, key)[b], j)
  {
    var init, last := s[..|s| - 1], |s| - 1;
    var keys, was := FirstSeen(s, key), FirstSeen(init, key);
    assert was[a] == keys[a];
    if b < |was| {
      assert was[b] == keys[b];
      FirstSeenInOrder(init, key, a, b);
      var i: nat, j: nat :| i < j && FirstAt(init, key, was[a], i) && FirstAt(init, key, was[b], j);
      assert FirstAt(s, key, keys[a], i) && FirstAt(s, key, keys[b], j);
    } else {
      FirstSeenKeys(init, key);
      assert was[a] in was;
      FirstPosition(init, key, was[a]);
      var i: nat :| FirstAt(init, key, was[a], i);
      assert FirstAt(s, key, keys[a], i);
      assert forall j :: 0 <= j < last ==> key(init[j]) in KeySet(init, key);
      assert FirstAt(s, key, keys[b], last);
    }
  }

  lemma GroupSnoc<T>(s: seq<T>, x: T, key: T -> string, k: string)
    ensures Group(s + [x], key, k) == if key(x) == k then Group(s, key, k) + [x] else Group(s, key, k)
  {
    var p := y => key(y) == k;
    FilterAppend(p, s, [x]);
    assert Filter(p, [x]) == if p(x) then [x] else [];
  }

  lemma {:induction false} GroupOfAbsentKey<T>(s: seq<T>, key: T -> string, k: string)
    requires k !in FirstSeen(s, key)
    ensures Group(s, key, k) == []
  {
    if s != [] {
      var init := s[..|s| - 1];
      assert s == init + [s[|s| - 1]];
      GroupOfAbsentKey(init, key, k);
      GroupSnoc(init, s[|s| - 1], key, k);
    }
  }

  lemma GroupsSnoc<T>(s: seq<T>, x: T, key: T -> string)
    ensures forall k :: Group(s + [x], key, k) == if key(x) == k then Group(s, key, k) + [x] else Group(s, key, k)
  {
    forall k
      ensures Group(s + [x], key, k) == if key(x) == k then Group(s, key, k) + [x] else Group(s, key, k)
    {
      GroupSnoc(s, x, key, k);
    }
  }

  lemma OpensGroup<T>(s: seq<T>, x: T, key: T -> string)
    requires key(x) !in FirstSeen(s, key)
    ensures FirstSeen(s + [x], key) == FirstSeen(s, key) + [key(x)]
    ensures GroupBy(s + [x], key) == GroupBy(s, key) + [[x]]
  {
    assert (s + [x])[..|s|] == s;
    GroupsSnoc(s, x, key);
    GroupOfAbsentKey(s, key, key(x));
    assert Group(s + [x], key, key(x)) == [x];
  }

  lemma JoinsGroup<T>(s: seq<T>, x: T, key: T -> string, i: nat)
    requires i < |FirstSeen(s, key)| && FirstSeen(s, key)[i] == key(x)
    ensures FirstSeen(s + [x], key) == FirstSeen(s, key)
    ensures GroupBy(s + [x], key) == GroupBy(s, key)[i := GroupBy(s, key)[i] + [x]]
  {
    assert (s + [x])[..|s|] == s;
    FirstSeenKeys(s, key);
    GroupsSnoc(s, x, key);
  }

  /** One more element either joins the group of its key or opens a new last group. */
  lemma GroupBySnoc<T>(s: seq<T>, x: T, key: T -> string)
    ensures var keys, groups := FirstSeen(s, key), GroupBy(s, key);
            && (forall i :: 0 <= i < |keys| && keys[i] == key(x) ==>
                  FirstSeen(s + [x], key) == keys && GroupBy(s + [x], key) == groups[i := groups[i] + [x]])
            && (key(x) !in keys ==>
                  FirstSeen(s + [x], key) == keys + [key(x)] && GroupBy(s + [x], key) == groups + [[x]])
  {
    var keys, groups := FirstSeen(s, key), GroupBy(s, key);
    if key(x) !in keys {
      OpensGroup(s, x, key);
    }
    forall i | 0 <= i < |keys| && keys[i] == key(x)
      ensures FirstSeen(s + [x], key) == keys && GroupBy(s + [x], key) == groups[i := groups[i] + [x]]
    {
      JoinsGroup(s, x, key, i);
    }
  }

  lemma {:induction false} ConcatUpdate<T>(ss: seq<seq<T>>, i: nat, x: T)
    requires i < |ss|
    ensures multiset(Concat(ss[i := ss[i] + [x]])) == multiset(Concat(ss)) + multiset{x}
  {
    if i == 0 {
      assert ss[0 := ss[0] + [x]][1..] == ss[1..];
    } else {
      ConcatUpdate(ss[1..], i - 1, x);
      assert ss[i := ss[i] + [x]][1..] == ss[1..][i - 1 := ss[1..][i - 1] + [x]];
    }
  }

  /** The groups together are a permutation of the input. */
  lemma {:induction false} GroupsArePermutation<T>(s: seq<T>, key: T -> string)
    ensures multiset(Concat(GroupBy(s, key))) == multiset(s)
  {
    if s != [] {
      var init, x := s[..|s| - 1], s[|s| - 1];
      assert s == init + [x];
      GroupsArePermutation(init, key);
      GroupBySnoc(init, x, key);
      var keys, groups := FirstSeen(init, key), GroupBy(init, key);
      if key(x) in keys {
        var i :| 0 <= i < |keys| && keys[i] == key(x);
        ConcatUpdate(groups, i, x);
      } else {
        ConcatSnoc(groups, [x]);
      }
    }
  }

  /** Two positions fall into one group exactly when their keys agree. */
  lemma SameGroupIffSameKey<T>(s: seq<T>, key: T -> string, i: nat, j: nat)
    requires i < |s| && j < |s|
    ensures key(s[i]) == key(s[j]) <==>
            exists g :: 0 <= g < |GroupBy(s, key)| && s[i] in GroupBy(s, key)[g] && s[j] in GroupBy(s, key)[g]
  {
    FirstSeenKeys(s, key);
    var keys, groups := FirstSeen(s, key), GroupBy(s, key);
    forall g, x | 0 <= g < |groups| && x in s
      ensures x in groups[g] <==> key(x) == keys[g]
    {
      FilterMembers(y => key(y) == keys[g], s, x);
    }
    if key(s[i]) == key(s[j]) {
      assert key(s[i]) in KeySet(s, key);
      assert key(s[i]) in keys;
      var g :| 0 <= g < |keys| && keys[g] == key(s[i]);
      assert s[i] in groups[g] && s[j] in groups[g];
    }
  }

  /** The members of a group are those of the input with its key. */
  lemma GroupMembers<T>(s: seq<T>, key: T -> string, g: nat, x: T)
    requires g < |GroupBy(s, key)|
    ensures x in GroupBy(s, key)[g] <==> x in s && key(x) == FirstSeen(s, key)[g]
  {
    var k := FirstSeen(s, key)[g];
    FilterMembers(y => key(y) == k, s, x);
  }

  lemma {:induction false} DistinctCount(keys: seq<string>)
    requires Distinct(keys)
    ensures |set k | k in keys| == |keys|
  {
    if keys != [] {
      var init, last := keys[..|keys| - 1], keys[|keys| - 1];
      DistinctCount(init);
      assert keys == init + [last];
      assert (set k | k in keys) == (set k | k in init) + {last};
    }
  }

  /** No group is empty and the number of groups is the number of distinct keys. */
  lemma GroupCount<T>(s: seq<T>, key: T -> string)
    ensures |GroupBy(s, key)| == |KeySet(s, key)|
    ensures forall g :: 0 <= g < |GroupBy(s, key)| ==> GroupBy(s, key)[g] != []
  {
    FirstSeenKeys(s, key);
    var keys := FirstSeen(s, key);
    assert KeySet(s, key) == set k | k in keys;
    DistinctCount(keys);
    forall g | 0 <= g < |keys|
      ensures GroupBy(s, key)[g] != []
    {
      assert keys[g] in keys;
      var x :| x in s && key(x) == keys[g];
      FilterMembers(y => key(y) == keys[g], s, x);
    }
  }
}
