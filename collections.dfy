/** Sequence operations of the JavaScript array API that the core uses: `filter(Boolean)` over
    results that may be `null`, and `[...new Set(xs)]`. */
module Collections {
  import opened Wrappers

  /** `xs.filter(Boolean)` over a list whose dropped elements are `null`: the present values, in order. */
  function Somes<T>(xs: seq<Option<T>>): (r: seq<T>)
    ensures |r| <= |xs|
  {
    if xs == [] then []
    else Somes(xs[..|xs| - 1]) + if xs[|xs| - 1].Some? then [xs[|xs| - 1].value] else []
  }

  /** The positions of the present values of `xs`, in increasing order. */
  function SomeIndices<T>(xs: seq<Option<T>>): seq<nat>
  {
    if xs == [] then []
    else SomeIndices(xs[..|xs| - 1]) + if xs[|xs| - 1].Some? then [|xs| - 1] else []
  }

  /** Extending a prefix of `xs` by one element extends its `Somes` by that element's value, if any. */
  lemma SomesPrefixStep<T>(xs: seq<Option<T>>, j: nat)
    requires j < |xs|
    ensures Somes(xs[..j + 1]) == Somes(xs[..j]) + if xs[j].Some? then [xs[j].value] else []
  {
    assert xs[..j + 1] == xs[..j] + [xs[j]];
    SomesSnoc(xs[..j], xs[j]);
  }

  lemma SomesSnoc<T>(xs: seq<Option<T>>, x: Option<T>)
    ensures Somes(xs + [x]) == Somes(xs) + if x.Some? then [x.value] else []
    ensures SomeIndices(xs + [x]) == SomeIndices(xs) + if x.Some? then [|xs|] else []
  {
    assert (xs + [x])[..|xs|] == xs;
  }

  predicate StrictlyIncreasing(s: seq<nat>) {
    forall i, j :: 0 <= i < j < |s| ==> s[i] < s[j]
  }

  /** `filter(Boolean)` keeps exactly the present values, in their original order: the k-th value
      kept stands at the k-th position of `SomeIndices(xs)`, those positions increase, and a
      position is among them exactly when its value is present. */
  lemma {:induction false} SomesOrder<T>(xs: seq<Option<T>>)
    ensures |Somes(xs)| == |SomeIndices(xs)|
    ensures StrictlyIncreasing(SomeIndices(xs))
    ensures forall k :: 0 <= k < |SomeIndices(xs)| ==>
      SomeIndices(xs)[k] < |xs| && xs[SomeIndices(xs)[k]] == Some(Somes(xs)[k])
    ensures forall i :: 0 <= i < |xs| ==> (xs[i].Some? <==> i in SomeIndices(xs))
  {
    if xs != [] {
      var init := xs[..|xs| - 1];
      SomesOrder(init);
      assert xs == init + [xs[|xs| - 1]];
      SomesSnoc(init, xs[|xs| - 1]);
      var idx := SomeIndices(xs);
      forall k | 0 <= k < |SomeIndices(init)|
        ensures SomeIndices(init)[k] < |init|
      {
      }
      forall i | 0 <= i < |xs|
        ensures xs[i].Some? <==> i in idx
      {
        if i < |init| {
          assert xs[i] == init[i];
          assert i in SomeIndices(init) ==> i in idx;
          assert i in idx && i != |init| ==> i in SomeIndices(init);
        }
      }
    }
  }

  /** Every kept value stands in `xs`. */
  lemma SomesMembers<T>(xs: seq<Option<T>>, k: int)
    requires 0 <= k < |Somes(xs)|
    ensures exists i :: 0 <= i < |xs| && xs[i] == Some(Somes(xs)[k])
  {
    SomesOrder(xs);
    assert xs[SomeIndices(xs)[k]] == Some(Somes(xs)[k]);
  }

  /** Nothing is dropped from a list without nulls. */
  lemma {:induction false} SomesAllPresent<T>(xs: seq<Option<T>>)
    requires forall i :: 0 <= i < |xs| ==> xs[i].Some?
    ensures |Somes(xs)| == |xs|
    ensures forall i :: 0 <= i < |xs| ==> Somes(xs)[i] == xs[i].value
  {
    if xs != [] {
      SomesAllPresent(xs[..|xs| - 1]);
    }
  }

  predicate NoDuplicates<T(==)>(s: seq<T>) {
    forall i, j :: 0 <= i < j < |s| ==> s[i] != s[j]
  }

  /** The elements of `xs` that are not in `s`, in order. */
  function Without(xs: seq<string>, s: set<string>): seq<string> {
    if xs == [] then []
    else Without(xs[..|xs| - 1], s) + if xs[|xs| - 1] !in s then [xs[|xs| - 1]] else []
  }

  /** `Without` keeps exactly the elements outside `s`. */
  lemma {:induction false} WithoutMembers(xs: seq<string>, s: set<string>)
    ensures forall x :: x in Without(xs, s) <==> x in xs && x !in s
    decreases |xs|
  {
    if xs != [] {
      var init := xs[..|xs| - 1];
      WithoutMembers(init, s);
      assert forall y :: y in xs <==> y in init || y == xs[|xs| - 1];
    }
  }

  lemma WithoutSnoc(xs: seq<string>, s: set<string>, x: string)
    ensures Without(xs + [x], s) == Without(xs, s) + if x !in s then [x] else []
  {
    assert (xs + [x])[..|xs|] == xs;
  }

  lemma {:induction false} WithoutEmpty(xs: seq<string>, s: set<string>, t: set<string>)
    requires Without(xs, s) == []
    ensures Without(xs, s + t) == []
    decreases |xs|
  {
    if xs != [] {
      WithoutEmpty(xs[..|xs| - 1], s, t);
    }
  }

  /** Once the first remaining element `u` is also excluded, what remains is the rest. */
  lemma {:induction false} WithoutShift(xs: seq<string>, s: set<string>, u: string)
    requires NoDuplicates(xs) && Without(xs, s) != [] && Without(xs, s)[0] == u
    ensures Without(xs, s + {u}) == Without(xs, s)[1..]
    decreases |xs|
  {
    var init, x := xs[..|xs| - 1], xs[|xs| - 1];
    var w := Without(init, s);
    assert Without(xs, s) == w + if x !in s then [x] else [];
    assert Without(xs, s + {u}) == Without(init, s + {u}) + if x !in s + {u} then [x] else [];
    if w == [] {
      WithoutEmpty(init, s, {u});
    } else {
      assert NoDuplicates(init) by {
        assert forall i :: 0 <= i < |init| ==> init[i] == xs[i];
      }
      WithoutShift(init, s, u);
      WithoutMembers(init, s);
      assert u in w;
      assert x != u by {
        var i :| 0 <= i < |init| && init[i] == u;
        assert xs[i] == u;
      }
      assert (w + if x !in s then [x] else [])[1..] == w[1..] + if x !in s then [x] else [];
    }
  }

  /** `xs.indexOf(x)`: the position of the first occurrence of `x`. */
  function IndexOf(xs: seq<string>, x: string): (k: nat)
    requires x in xs
    ensures k < |xs| && xs[k] == x && x !in xs[..k]
  {
    if xs[0] == x then 0
    else
      assert x in xs[1..];
      var k := IndexOf(xs[1..], x);
      assert xs[..k + 1] == [xs[0]] + xs[1..][..k];
      k + 1
  }

  /** The first occurrence of an element of a prefix lies in that prefix. */
  lemma IndexOfPrefix(xs: seq<string>, m: nat, x: string)
    requires m <= |xs| && x in xs[..m]
    ensures IndexOf(xs, x) == IndexOf(xs[..m], x)
  {
    var a, b := IndexOf(xs, x), IndexOf(xs[..m], x);
    assert xs[..m][..b] == xs[..b];
  }

  /** `[...new Set(xs)]`: each element once, in the order of its first occurrence (`DedupOrder`). */
  function Dedup(xs: seq<string>): (r: seq<string>)
    ensures NoDuplicates(r)
    ensures forall x :: x in r <==> x in xs
    ensures |r| <= |xs|
  {
    if xs == [] then []
    else
      var init := Dedup(xs[..|xs| - 1]);
      var x := xs[|xs| - 1];
      assert forall y :: y in xs <==> y in xs[..|xs| - 1] || y == x;
      if x in init then init else init + [x]
  }

  /** Appending an element leaves the first occurrences of the earlier elements where they were. */
  lemma IndexOfInit(xs: seq<string>)
    requires xs != []
    ensures var init := xs[..|xs| - 1];
      forall y :: y in Dedup(init) ==> y in xs && IndexOf(xs, y) == IndexOf(init, y) < |init|
  {
    var init := xs[..|xs| - 1];
    forall y | y in Dedup(init) ensures y in xs && IndexOf(xs, y) == IndexOf(init, y) < |init| {
      IndexOfPrefix(xs, |init|, y);
    }
  }

  /** The elements of `[...new Set(xs)]` stand in the order of their first occurrences in `xs`. */
  lemma {:induction false} DedupOrder(xs: seq<string>)
    ensures forall i, j :: 0 <= i < j < |Dedup(xs)| ==> IndexOf(xs, Dedup(xs)[i]) < IndexOf(xs, Dedup(xs)[j])
    decreases |xs|
  {
    if xs != [] {
      var init := xs[..|xs| - 1];
      var d := Dedup(init);
      var x := xs[|xs| - 1];
      DedupOrder(init);
      IndexOfInit(xs);
      if x in d {
        assert Dedup(xs) == d;
        forall i, j | 0 <= i < j < |d| ensures IndexOf(xs, d[i]) < IndexOf(xs, d[j]) {
          assert d[i] in d && d[j] in d;
        }
      } else {
        var r := d + [x];
        assert Dedup(xs) == r;
        assert x !in init;
        assert IndexOf(xs, x) == |init|;
        forall i, j | 0 <= i < j < |r| ensures IndexOf(xs, r[i]) < IndexOf(xs, r[j]) {
          assert r[i] == d[i] && d[i] in d;
          if j < |d| {
            assert r[j] == d[j] && d[j] in d;
          }
        }
      }
    }
  }
}
