/** `itertools.product` over lists, used for the Cartesian product of the
    sub-components' regimes. */
module Products {

  /** `list(itertools.product(*lists))`: the combinations, built in the
      order `itertools.product` yields them (the last list varying
      fastest).  `ProductFacts` states their number and membership; the
      order is given by the definition and not stated as a lemma. */
  function Product<T>(lists: seq<seq<T>>): seq<seq<T>>
  {
    if |lists| == 0 then [[]]
    else Extend(lists[0], Product(lists[1..]))
  }

  /** `[[x] + p for x in firsts for p in rests]`. */
  function Extend<T>(firsts: seq<T>, rests: seq<seq<T>>): seq<seq<T>>
  {
    if |firsts| == 0 then []
    else Prefixed(firsts[0], rests) + Extend(firsts[1..], rests)
  }

  /** `[[x] + p for p in rests]`. */
  function Prefixed<T>(x: T, rests: seq<seq<T>>): (r: seq<seq<T>>)
    ensures |r| == |rests|
    ensures forall j :: 0 <= j < |rests| ==> r[j] == [x] + rests[j]
  {
    seq(|rests|, j requires 0 <= j < |rests| => [x] + rests[j])
  }

  /** The product of the lengths. */
  function SizeProduct<T>(lists: seq<seq<T>>): nat
  {
    if |lists| == 0 then 1 else |lists[0]| * SizeProduct(lists[1..])
  }

  /** A combination: one element of each list, in order. */
  predicate IsCombination<T(==)>(t: seq<T>, lists: seq<seq<T>>)
  {
    |t| == |lists| && forall i :: 0 <= i < |t| ==> t[i] in lists[i]
  }

  lemma PrefixedMembers<T>(x: T, rests: seq<seq<T>>)
    ensures forall t :: t in Prefixed(x, rests) <==> (|t| > 0 && t[0] == x && t[1..] in rests)
  {
    var head := Prefixed(x, rests);
    forall t ensures t in head <==> (|t| > 0 && t[0] == x && t[1..] in rests) {
      if t in head {
        var j :| 0 <= j < |head| && head[j] == t;
        assert t[1..] == rests[j];
      }
      if |t| > 0 && t[0] == x && t[1..] in rests {
        var j :| 0 <= j < |rests| && rests[j] == t[1..];
        assert head[j] == t;
      }
    }
  }

  lemma {:induction false} ExtendLength<T>(firsts: seq<T>, rests: seq<seq<T>>)
    ensures |Extend(firsts, rests)| == |firsts| * |rests|
    decreases |firsts|
  {
    if |firsts| > 0 {
      ExtendLength(firsts[1..], rests);
      calc {
        |Extend(firsts, rests)|;
        |rests| + (|firsts| - 1) * |rests|;
        { assert (|firsts| - 1) * |rests| == |firsts| * |rests| - |rests|; }
        |firsts| * |rests|;
      }
    }
  }

  lemma {:induction false} ExtendMember<T>(firsts: seq<T>, rests: seq<seq<T>>, t: seq<T>)
    requires t in Extend(firsts, rests)
    ensures |t| > 0 && t[0] in firsts && t[1..] in rests
    decreases |firsts|
  {
    if t in Prefixed(firsts[0], rests) {
      PrefixedMembers(firsts[0], rests);
    } else {
      ExtendMember(firsts[1..], rests, t);
    }
  }

  lemma {:induction false} ExtendMembers<T>(firsts: seq<T>, rests: seq<seq<T>>)
    ensures forall t :: t in Extend(firsts, rests) <==>
      (|t| > 0 && t[0] in firsts && t[1..] in rests)
    decreases |firsts|
  {
    if |firsts| > 0 {
      ExtendMembers(firsts[1..], rests);
      PrefixedMembers(firsts[0], rests);
      assert firsts == [firsts[0]] + firsts[1..];
    }
  }

  /** The product holds exactly the combinations, and as many elements as
      the product of the lengths. */
  lemma {:induction false} ProductFacts<T>(lists: seq<seq<T>>)
    ensures |Product(lists)| == SizeProduct(lists)
    ensures forall t :: t in Product(lists) <==> IsCombination(t, lists)
    decreases |lists|
  {
    if |lists| > 0 {
      ProductFacts(lists[1..]);
      ExtendLength(lists[0], Product(lists[1..]));
      ExtendMembers(lists[0], Product(lists[1..]));
      forall t ensures t in Product(lists) <==> IsCombination(t, lists) {
        if |t| == |lists| {
          assert IsCombination(t[1..], lists[1..]) <==> forall i :: 1 <= i < |t| ==> t[i] in lists[i] by {
            forall i | 1 <= i < |t| ensures t[1..][i - 1] == t[i] {}
          }
        }
      }
    }
  }

  predicate Distinct<T(==)>(s: seq<T>)
  {
    forall a, b :: 0 <= a < b < |s| ==> s[a] != s[b]
  }

  /** When no list repeats an element, every combination occurs once. */
  lemma {:induction false} ProductDistinct<T>(lists: seq<seq<T>>)
    requires forall i :: 0 <= i < |lists| ==> Distinct(lists[i])
    ensures Distinct(Product(lists))
    decreases |lists|
  {
    if |lists| > 0 {
      ProductDistinct(lists[1..]);
      ExtendDistinct(lists[0], Product(lists[1..]));
    }
  }

  lemma {:induction false} ExtendDistinct<T>(firsts: seq<T>, rests: seq<seq<T>>)
    requires Distinct(firsts) && Distinct(rests)
    ensures Distinct(Extend(firsts, rests))
    decreases |firsts|
  {
    if |firsts| > 0 {
      ExtendDistinct(firsts[1..], rests);
      var head := Prefixed(firsts[0], rests);
      var tail := Extend(firsts[1..], rests);
      var all := head + tail;
      forall a, b | 0 <= a < b < |all| ensures all[a] != all[b] {
        if b < |head| {
          assert all[a][1..] == rests[a] && all[b][1..] == rests[b];
        } else if a < |head| {
          assert all[b] == tail[b - |head|];
          ExtendMember(firsts[1..], rests, all[b]);
          assert all[a][0] == firsts[0];
          assert all[b][0] in firsts[1..];
          assert firsts[0] !in firsts[1..];
        } else {
          assert all[a] == tail[a - |head|] && all[b] == tail[b - |head|];
        }
      }
    }
  }

  /** `itertools.chain(*lists)`: the lists one after another. */
  function Chain<T>(lists: seq<seq<T>>): seq<T>
  {
    if |lists| == 0 then [] else lists[0] + Chain(lists[1..])
  }

  /** The chained sequence holds exactly the elements of the lists. */
  lemma {:induction false} ChainMembers<T>(lists: seq<seq<T>>)
    ensures forall x :: x in Chain(lists) ==> exists i :: 0 <= i < |lists| && x in lists[i]
    ensures forall x, i :: 0 <= i < |lists| && x in lists[i] ==> x in Chain(lists)
  {
    if |lists| > 0 {
      var rest := lists[1..];
      ChainMembers(rest);
      forall x | x in Chain(lists) ensures exists i :: 0 <= i < |lists| && x in lists[i] {
        if x !in lists[0] {
          assert x in Chain(rest);
          var i :| 0 <= i < |rest| && x in rest[i];
          assert x in lists[i + 1];
        } else {
          assert x in lists[0];
        }
      }
      forall x, i | 0 <= i < |lists| && x in lists[i] ensures x in Chain(lists) {
        if i > 0 {
          assert x in rest[i - 1];
        }
      }
    }
  }

  /** A sequence with a first element is distinct when the rest is and does
      not hold that element. */
  lemma DistinctCons<T>(x: T, rest: seq<T>)
    ensures Distinct([x] + rest) <==> x !in rest && Distinct(rest)
  {
    var s := [x] + rest;
    if Distinct(s) {
      forall a, b | 0 <= a < b < |rest| ensures rest[a] != rest[b] {
        assert s[a + 1] != s[b + 1];
      }
      forall j | 0 <= j < |rest| ensures rest[j] != x {
        assert s[0] != s[j + 1];
      }
    }
    if x !in rest && Distinct(rest) {
      forall a, b | 0 <= a < b < |s| ensures s[a] != s[b] {
        if a > 0 {
          assert s[a] == rest[a - 1] && s[b] == rest[b - 1];
        } else {
          assert s[b] == rest[b - 1];
        }
      }
    }
  }
}
