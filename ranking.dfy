/** The "top articles" ranking: a stable sort by descending absolute score,
    cut to at most twenty records. */
module Ranking {
  import opened Articles

  /** How many articles the sentiment chart shows at most. */
  const TopCount: nat := 20

  function Abs(x: real): real
  {
    if x < 0.0 then -x else x
  }

  function Magnitude(r: Record): real
  {
    Abs(r.sentiment)
  }

  /** Absolute scores never increase along the sequence. */
  predicate NonIncreasing(rs: seq<Record>)
  {
    forall i, j :: 0 <= i < j < |rs| ==> Magnitude(rs[i]) >= Magnitude(rs[j])
  }

  /** The records whose absolute score is `m`, in sequence order. Comparing these
      before and after sorting states that the sort is stable. */
  function WithMagnitude(rs: seq<Record>, m: real): seq<Record>
  {
    if rs == [] then []
    else (if Magnitude(rs[0]) == m then [rs[0]] else []) + WithMagnitude(rs[1..], m)
  }

  lemma {:induction false} WithMagnitudeAppend(xs: seq<Record>, ys: seq<Record>, m: real)
    ensures WithMagnitude(xs + ys, m) == WithMagnitude(xs, m) + WithMagnitude(ys, m)
  {
    if xs == [] {
      assert xs + ys == ys;
    } else {
      var first := (if Magnitude(xs[0]) == m then [xs[0]] else []);
      assert (xs + ys)[0] == xs[0];
      assert (xs + ys)[1..] == xs[1..] + ys;
      assert WithMagnitude(xs + ys, m) == first + WithMagnitude(xs[1..] + ys, m);
      WithMagnitudeAppend(xs[1..], ys, m);
      assert first + (WithMagnitude(xs[1..], m) + WithMagnitude(ys, m))
          == (first + WithMagnitude(xs[1..], m)) + WithMagnitude(ys, m);
    }
  }

  /** Places `x` after every record of strictly greater magnitude and before
      the rest, so that `x` goes ahead of the records it ties with. */
  function InsertByMagnitude(x: Record, rs: seq<Record>): seq<Record>
  {
    if rs == [] || Magnitude(rs[0]) <= Magnitude(x) then [x] + rs
    else [rs[0]] + InsertByMagnitude(x, rs[1..])
  }

  lemma {:induction false} InsertByMagnitudePermutes(x: Record, rs: seq<Record>)
    ensures multiset(InsertByMagnitude(x, rs)) == multiset(rs) + multiset{x}
  {
    if rs != [] && Magnitude(rs[0]) > Magnitude(x) {
      InsertByMagnitudePermutes(x, rs[1..]);
      assert rs == [rs[0]] + rs[1..];
    }
  }

  lemma {:induction false} InsertByMagnitudeOrdered(x: Record, rs: seq<Record>)
    requires NonIncreasing(rs)
    ensures NonIncreasing(InsertByMagnitude(x, rs))
  {
    if rs != [] && Magnitude(rs[0]) > Magnitude(x) {
      var rest := InsertByMagnitude(x, rs[1..]);
      InsertByMagnitudeOrdered(x, rs[1..]);
      InsertByMagnitudePermutes(x, rs[1..]);
      var r := [rs[0]] + rest;
      forall k | 0 <= k < |rest| ensures Magnitude(rest[k]) <= Magnitude(rs[0]) {
        assert rest[k] in multiset(rest);
        if rest[k] != x {
          assert rest[k] in multiset(rs[1..]);
          var i :| 0 <= i < |rs[1..]| && rs[1..][i] == rest[k];
          assert rs[i + 1] == rest[k];
        }
      }
      forall i, j | 0 <= i < j < |r| ensures Magnitude(r[i]) >= Magnitude(r[j]) {
        assert r[j] == rest[j - 1];
        if i > 0 { assert r[i] == rest[i - 1]; }
      }
    } else {
      var r := [x] + rs;
      forall i, j | 0 <= i < j < |r| ensures Magnitude(r[i]) >= Magnitude(r[j]) {
        assert r[j] == rs[j - 1];
        if i > 0 { assert r[i] == rs[i - 1]; }
      }
    }
  }

  /** Inserting keeps, for every magnitude, the order of the records that have it,
      with `x` first among its ties. */
  lemma {:induction false} InsertByMagnitudeStable(x: Record, rs: seq<Record>, m: real)
    ensures WithMagnitude(InsertByMagnitude(x, rs), m) == WithMagnitude([x] + rs, m)
  {
    if rs != [] && Magnitude(rs[0]) > Magnitude(x) {
      var rest := InsertByMagnitude(x, rs[1..]);
      InsertByMagnitudeStable(x, rs[1..], m);
      var r := [rs[0]] + rest;
      assert r[1..] == rest;
      assert ([x] + rs)[1..] == rs;
      assert ([x] + rs[1..])[1..] == rs[1..];
      var headOf := if Magnitude(rs[0]) == m then [rs[0]] else [];
      var xOf := if Magnitude(x) == m then [x] else [];
      assert WithMagnitude(r, m) == headOf + WithMagnitude(rest, m);
      assert WithMagnitude(rest, m) == xOf + WithMagnitude(rs[1..], m);
      assert WithMagnitude(rs, m) == headOf + WithMagnitude(rs[1..], m);
      assert WithMagnitude([x] + rs, m) == xOf + WithMagnitude(rs, m);
      assert headOf == [] || xOf == [];
      assert headOf + (xOf + WithMagnitude(rs[1..], m)) == xOf + (headOf + WithMagnitude(rs[1..], m));
    }
  }

  /** `sorted(records, key=abs(sentiment), reverse=True)`: Python's sort is
      stable also when reversed, so records of equal magnitude keep their order. */
  function SortByMagnitude(rs: seq<Record>): (sorted: seq<Record>)
    ensures NonIncreasing(sorted)
    ensures multiset(sorted) == multiset(rs)
  {
    if rs == [] then []
    else
      var tail := SortByMagnitude(rs[1..]);
      InsertByMagnitudeOrdered(rs[0], tail);
      InsertByMagnitudePermutes(rs[0], tail);
      assert rs == [rs[0]] + rs[1..];
      InsertByMagnitude(rs[0], tail)
  }

  /** The ranking is stable: for every magnitude, the records that have it come
      out in input order. */
  lemma {:induction false} SortByMagnitudeStable(rs: seq<Record>, m: real)
    ensures WithMagnitude(SortByMagnitude(rs), m) == WithMagnitude(rs, m)
  {
    if rs != [] {
      var tail := SortByMagnitude(rs[1..]);
      SortByMagnitudeStable(rs[1..], m);
      InsertByMagnitudeStable(rs[0], tail, m);
      assert rs == [rs[0]] + rs[1..];
      WithMagnitudeAppend([rs[0]], rs[1..], m);
      WithMagnitudeAppend([rs[0]], tail, m);
    }
  }

  /** The records whose magnitude is `m` in a prefix are a prefix of those in the whole. */
  lemma {:induction false} WithMagnitudePrefix(rs: seq<Record>, n: nat, m: real)
    requires n <= |rs|
    ensures var whole := WithMagnitude(rs, m);
            var part := WithMagnitude(rs[..n], m);
            |part| <= |whole| && part == whole[..|part|]
  {
    assert rs == rs[..n] + rs[n..];
    WithMagnitudeAppend(rs[..n], rs[n..], m);
  }

  /** Lines 118-120: the first `min(20, n)` records of the stable ranking. */
  function TopArticles(rs: seq<Record>): (top: seq<Record>)
    ensures |top| == if |rs| < TopCount then |rs| else TopCount
    ensures NonIncreasing(top)
    ensures multiset(top) <= multiset(rs)
  {
    var sorted := SortByMagnitude(rs);
    var n := if |sorted| < TopCount then |sorted| else TopCount;
    assert sorted == sorted[..n] + sorted[n..];
    assert multiset(sorted) == multiset(sorted[..n]) + multiset(sorted[n..]);
    sorted[..n]
  }

  /** No record left out of the top articles has a greater magnitude than any
      record in them. */
  lemma TopArticlesAreLargest(rs: seq<Record>, x: Record)
    requires x in multiset(rs) - multiset(TopArticles(rs))
    ensures forall k :: 0 <= k < |TopArticles(rs)| ==> Magnitude(x) <= Magnitude(TopArticles(rs)[k])
  {
    var sorted, top := SortByMagnitude(rs), TopArticles(rs);
    var n := |top|;
    assert sorted == top + sorted[n..];
    assert multiset(sorted) == multiset(top) + multiset(sorted[n..]);
    assert x in multiset(sorted[n..]);
    var i :| n <= i < |sorted| && sorted[i] == x;
  }

  /** Ties keep input order in the top articles: for every magnitude, the top
      records that have it are the first ones of the input that have it. */
  lemma TopArticlesStable(rs: seq<Record>, m: real)
    ensures |WithMagnitude(TopArticles(rs), m)| <= |WithMagnitude(rs, m)|
    ensures WithMagnitude(TopArticles(rs), m) == WithMagnitude(rs, m)[..|WithMagnitude(TopArticles(rs), m)|]
  {
    var sorted := SortByMagnitude(rs);
    WithMagnitudePrefix(sorted, |TopArticles(rs)|, m);
    SortByMagnitudeStable(rs, m);
  }
}
