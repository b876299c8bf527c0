/**
 * Sequence helpers shared by the two in-memory stores: the option type used
 * for absent request fields, JavaScript's `filter` and `findIndex`, and the
 * `Math.max(...ids) + 1` id generator.
 */
module Base {

  datatype Option<+T> = None | Some(value: T)
  {
    function GetOr(default: T): T
    {
      match this
      case Some(v) => v
      case None => default
    }
  }

  /** `a` can be obtained from `b` by deleting elements (order is kept). */
  ghost predicate IsSubsequence<T>(a: seq<T>, b: seq<T>)
    decreases |b|
  {
    a == [] ||
    (b != [] &&
     ((a[0] == b[0] && IsSubsequence(a[1..], b[1..])) || IsSubsequence(a, b[1..])))
  }

  /** JavaScript's `Array.prototype.filter`. */
  function Filter<T>(s: seq<T>, p: T -> bool): (r: seq<T>)
    ensures |r| <= |s|
    decreases |s|
  {
    if s == [] then [] else if p(s[0]) then [s[0]] + Filter(s[1..], p) else Filter(s[1..], p)
  }

  /**
   * `filter` keeps, in their original order, exactly the elements that
   * satisfy the predicate.
   */
  lemma {:induction false} FilterSpec<T>(s: seq<T>, p: T -> bool)
    ensures forall i :: 0 <= i < |Filter(s, p)| ==> Filter(s, p)[i] in s && p(Filter(s, p)[i])
    ensures forall i :: 0 <= i < |s| && p(s[i]) ==> s[i] in Filter(s, p)
    ensures IsSubsequence(Filter(s, p), s)
    decreases |s|
  {
    if s != [] {
      FilterSpec(s[1..], p);
      var rest := Filter(s[1..], p);
      if p(s[0]) {
        assert Filter(s, p) == [s[0]] + rest;
        assert forall i :: 1 <= i < |s| ==> s[i] == s[1..][i - 1];
      } else {
        assert Filter(s, p) == rest;
        assert forall i :: 1 <= i < |s| ==> s[i] == s[1..][i - 1];
        if rest != [] {
          assert s[1..] != [];
        }
      }
    }
  }

  lemma {:induction false} FilterAll<T>(s: seq<T>, p: T -> bool)
    requires forall i :: 0 <= i < |s| ==> p(s[i])
    ensures Filter(s, p) == s
    decreases |s|
  {
    if s != [] {
      FilterAll(s[1..], p);
    }
  }

  /** Two filters in a row keep exactly what one filter by the conjunction keeps. */
  lemma {:induction false} FilterFilter<T>(s: seq<T>, p: T -> bool, q: T -> bool, pq: T -> bool)
    requires forall x :: pq(x) == (p(x) && q(x))
    ensures Filter(Filter(s, p), q) == Filter(s, pq)
    decreases |s|
  {
    if s != [] {
      FilterFilter(s[1..], p, q, pq);
    }
  }

  /** Filtering a concatenation filters each part. */
  lemma {:induction false} FilterAppend<T>(s: seq<T>, t: seq<T>, p: T -> bool)
    ensures Filter(s + t, p) == Filter(s, p) + Filter(t, p)
    decreases |s|
  {
    if s == [] {
      assert s + t == t;
    } else {
      assert (s + t)[1..] == s[1..] + t;
      FilterAppend(s[1..], t, p);
    }
  }

  /**
   * Filtering with a predicate that fails only at position `k` is cutting
   * out that position (`splice(k, 1)`).
   */
  lemma {:induction false} FilterDropsOne<T>(s: seq<T>, k: nat, p: T -> bool)
    requires k < |s| && !p(s[k])
    requires forall i :: 0 <= i < |s| && i != k ==> p(s[i])
    ensures |Filter(s, p)| == |s| - 1
    ensures forall i :: 0 <= i < k ==> Filter(s, p)[i] == s[i]
    ensures forall i :: k <= i < |s| - 1 ==> Filter(s, p)[i] == s[i + 1]
    decreases k
  {
    var t := s[1..];
    if k == 0 {
      FilterAll(t, p);
    } else {
      FilterDropsOne(t, k - 1, p);
      var r := Filter(t, p);
      assert Filter(s, p) == [s[0]] + r;
    }
  }

  /** `if (cond) erreurs.push(e)` on a list of errors built up check by check. */
  function Push<E>(erreurs: seq<E>, cond: bool, e: E): (r: seq<E>)
    ensures |r| == if cond then |erreurs| + 1 else |erreurs|
  {
    if cond then erreurs + [e] else erreurs
  }

  /** What a conditional push adds to a list. */
  lemma InPush<E>(erreurs: seq<E>, cond: bool, e: E, x: E)
    ensures x in Push(erreurs, cond, e) <==> x in erreurs || (cond && x == e)
  {
  }

  /** JavaScript's `Array.prototype.findIndex`, with None for -1. */
  function FindIndex<T>(s: seq<T>, p: T -> bool): (r: Option<nat>)
    ensures r.Some? ==> r.value < |s| && p(s[r.value])
    ensures r.Some? ==> forall j :: 0 <= j < r.value ==> !p(s[j])
    ensures r.None? <==> forall j :: 0 <= j < |s| ==> !p(s[j])
    decreases |s|
  {
    if s == [] then None
    else if p(s[0]) then Some(0)
    else
      match FindIndex(s[1..], p)
      case None => None
      case Some(i) => Some(i + 1)
  }

  /** The numbers held by an `ids` list are pairwise distinct. */
  ghost predicate Distinct(ids: seq<int>)
  {
    forall i, j :: 0 <= i < j < |ids| ==> ids[i] != ids[j]
  }

  function Max(ids: seq<int>): (m: int)
    requires ids != []
    ensures m in ids
    ensures forall i :: 0 <= i < |ids| ==> ids[i] <= m
    decreases |ids|
  {
    if |ids| == 1 then ids[0]
    else
      var m := Max(ids[1..]);
      if ids[0] < m then m else ids[0]
  }

  /**
   * The id given to a new entry: one more than the largest id in use, and 1
   * when there is none (see the finding on `MathMaxPlusOne` for what the
   * JavaScript expression does on an empty list).
   */
  function NextId(ids: seq<int>): (n: int)
    ensures forall i :: 0 <= i < |ids| ==> ids[i] < n
    ensures ids != [] ==> n - 1 in ids
    ensures ids == [] ==> n == 1
  {
    if ids == [] then 1 else Max(ids) + 1
  }

  /** A new id from `NextId` keeps the ids pairwise distinct. */
  lemma NextIdKeepsDistinct(ids: seq<int>)
    requires Distinct(ids)
    ensures Distinct(ids + [NextId(ids)])
  {
  }

  /** A JavaScript number restricted to the values ids can take here. */
  datatype ExtInt = NegInfinity | Finite(n: int)

  /**
   * `Math.max(...ids) + 1` as written: `Math.max()` of no arguments is
   * -Infinity, and -Infinity + 1 is -Infinity.
   */
  function MathMaxPlusOne(ids: seq<ExtInt>): (r: ExtInt)
    ensures (forall i :: 0 <= i < |ids| ==> ids[i] == NegInfinity) <==> r == NegInfinity
    ensures r.Finite? ==> forall i :: 0 <= i < |ids| ==> ids[i].NegInfinity? || ids[i].n < r.n
    decreases |ids|
  {
    if ids == [] then NegInfinity
    else
      var r := MathMaxPlusOne(ids[1..]);
      match ids[0]
      case NegInfinity => r
      case Finite(x) =>
        match r
        case NegInfinity => Finite(x + 1)
        case Finite(y) => if x + 1 < y then r else Finite(x + 1)
  }

  /**
   * On a list emptied by deletions, two creations in a row both receive
   * -Infinity: the ids collide, and no numeric id parameter can reach them.
   */
  lemma EmptyListIdsCollide(first: ExtInt, second: ExtInt)
    requires first == MathMaxPlusOne([])
    requires second == MathMaxPlusOne([first])
    ensures first == second == NegInfinity
    ensures forall id: int :: Finite(id) != first
  {
  }

  /** With the corrected `NextId`, the same two creations get distinct ids 1 and 2. */
  lemma EmptyListIdsCorrected(first: int, second: int)
    requires first == NextId([])
    requires second == NextId([first])
    ensures first == 1 && second == 2 && first != second
  {
  }

  /** An id list as JavaScript numbers. */
  function AsNumbers(ids: seq<int>): (r: seq<ExtInt>)
    ensures |r| == |ids| && forall i :: 0 <= i < |ids| ==> r[i] == Finite(ids[i])
  {
    seq(|ids|, i requires 0 <= i < |ids| => Finite(ids[i]))
  }

  /** On a non-empty list the expression as written and `NextId` give the same id. */
  lemma {:induction false} MathMaxAgreesOnNonEmpty(ids: seq<int>)
    requires ids != []
    ensures MathMaxPlusOne(AsNumbers(ids)) == Finite(NextId(ids))
    decreases |ids|
  {
    var xs := AsNumbers(ids);
    if |ids| == 1 {
      assert xs[1..] == [];
    } else {
      assert xs[1..] == AsNumbers(ids[1..]);
      MathMaxAgreesOnNonEmpty(ids[1..]);
    }
  }
}
