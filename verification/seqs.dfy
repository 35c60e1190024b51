/** The array built-ins the source uses (`find` and `filter`) over sequences, with `FindIndex` as the helper `Find` is built on. */
module Seqs {

  datatype Option<+T> = None | Some(value: T)

  /** The index of the first element that satisfies `pred`, as `Array.prototype.findIndex` returns it. */
  function FindIndex<T>(s: seq<T>, pred: T -> bool): (r: Option<nat>)
    ensures r.Some? ==> r.value < |s| && pred(s[r.value])
    ensures r.Some? ==> forall j :: 0 <= j < r.value ==> !pred(s[j])
    ensures r.None? ==> forall j :: 0 <= j < |s| ==> !pred(s[j])
  {
    if s == [] then None
    else if pred(s[0]) then Some(0)
    else
      match FindIndex(s[1..], pred)
      case None => None
      case Some(i) => Some(i + 1)
  }

  /** `Array.prototype.find`: the first element that satisfies `pred`, if any. */
  function Find<T>(s: seq<T>, pred: T -> bool): (r: Option<T>)
    ensures r.None? <==> forall x :: x in s ==> !pred(x)
    ensures r.Some? ==> exists i :: 0 <= i < |s| && s[i] == r.value && pred(s[i]) &&
                                    forall j :: 0 <= j < i ==> !pred(s[j])
  {
    match FindIndex(s, pred)
    case None => None
    case Some(i) => Some(s[i])
  }

  /** `Array.prototype.filter`: the elements that satisfy `pred`, in their original order. */
  function Filter<T(!new)>(s: seq<T>, pred: T -> bool): (r: seq<T>)
    ensures |r| <= |s|
  {
    if s == [] then []
    else (if pred(s[0]) then [s[0]] else []) + Filter(s[1..], pred)
  }

  /** What the filter keeps: exactly the elements that pass, each as often as `s` holds it. */
  lemma {:induction false} FilterContents<T(!new)>(s: seq<T>, pred: T -> bool)
    ensures forall x :: x in Filter(s, pred) <==> x in s && pred(x)
    ensures forall x :: multiset(Filter(s, pred))[x] == if pred(x) then multiset(s)[x] else 0
  {
    if s != [] {
      FilterContents(s[1..], pred);
      assert s == [s[0]] + s[1..];
    }
  }

  /** Filtering commutes with concatenation: what survives keeps its relative order. */
  lemma {:induction false} FilterAppend<T(!new)>(a: seq<T>, b: seq<T>, pred: T -> bool)
    ensures Filter(a + b, pred) == Filter(a, pred) + Filter(b, pred)
  {
    if a == [] {
      assert a + b == b;
    } else {
      var ab := a + b;
      var head := if pred(a[0]) then [a[0]] else [];
      assert ab[0] == a[0] && ab[1..] == a[1..] + b;
      FilterAppend(a[1..], b, pred);
      calc {
        Filter(ab, pred);
        head + Filter(a[1..] + b, pred);
        head + (Filter(a[1..], pred) + Filter(b, pred));
        (head + Filter(a[1..], pred)) + Filter(b, pred);
        Filter(a, pred) + Filter(b, pred);
      }
    }
  }

  /** A sequence whose every element passes is its own filter. */
  lemma {:induction false} FilterKeepsAll<T(!new)>(s: seq<T>, pred: T -> bool)
    requires forall i :: 0 <= i < |s| ==> pred(s[i])
    ensures Filter(s, pred) == s
  {
    if s != [] {
      FilterKeepsAll(s[1..], pred);
    }
  }

  /** Filtering twice with the same predicate changes nothing the second time. */
  lemma FilterIdempotent<T(!new)>(s: seq<T>, pred: T -> bool)
    ensures Filter(Filter(s, pred), pred) == Filter(s, pred)
  {
    var r := Filter(s, pred);
    FilterContents(s, pred);
    forall i | 0 <= i < |r| ensures pred(r[i]) {
      assert r[i] in r;
    }
    FilterKeepsAll(r, pred);
  }
}
