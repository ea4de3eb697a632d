/**
 The all-pairs order of two nested `for...of` loops: every stock file with every
 template, the stock file changing slowest (stock-major order).
 */
module Pairing {
  import opened JsRuntime

  /** The pairs `(x, ys[0]), ..., (x, ys[|ys| - 1])` that one pass of the inner loop visits. */
  function Row<A, B>(x: A, ys: seq<B>): (r: seq<(A, B)>)
    ensures |r| == |ys|
    ensures forall j :: 0 <= j < |ys| ==> r[j] == (x, ys[j])
  {
    if ys == [] then [] else Row(x, ys[..|ys| - 1]) + [(x, ys[|ys| - 1])]
  }

  /** The pairs both loops visit, in visiting order. */
  function AllPairs<A, B>(xs: seq<A>, ys: seq<B>): seq<(A, B)> {
    if xs == [] then [] else AllPairs(xs[..|xs| - 1], ys) + Row(xs[|xs| - 1], ys)
  }

  /** `f(env, x, y)` for every visited pair, in visiting order: what the loop body produces. */
  function MapPairs<E, A, B, C>(env: E, f: (E, A, B) -> C, pairs: seq<(A, B)>): (r: seq<C>)
    ensures |r| == |pairs|
  {
    if pairs == [] then []
    else MapPairs(env, f, pairs[..|pairs| - 1]) + [f(env, pairs[|pairs| - 1].0, pairs[|pairs| - 1].1)]
  }

  /** Result number k is the body's result for pair number k. */
  lemma {:induction false} MapPairsAt<E, A, B, C>(env: E, f: (E, A, B) -> C, pairs: seq<(A, B)>, k: nat)
    requires k < |pairs|
    ensures MapPairs(env, f, pairs)[k] == f(env, pairs[k].0, pairs[k].1)
  {
    var front := pairs[..|pairs| - 1];
    if k < |front| {
      MapPairsAt(env, f, front, k);
      assert pairs[k] == front[k];
    }
  }

  /** Visiting one more pair produces one more result. */
  lemma {:induction false} MapPairsSnoc<E, A, B, C>(env: E, f: (E, A, B) -> C, pairs: seq<(A, B)>, x: A, y: B)
    ensures MapPairs(env, f, pairs + [(x, y)]) == MapPairs(env, f, pairs) + [f(env, x, y)]
  {
    assert (pairs + [(x, y)])[..|pairs|] == pairs;
  }

  /** One more step of the inner loop visits one more pair of the current row. */
  lemma {:induction false} RowSnoc<A, B>(x: A, ys: seq<B>, j: nat)
    requires j < |ys|
    ensures Row(x, ys[..j + 1]) == Row(x, ys[..j]) + [(x, ys[j])]
  {
    assert ys[..j + 1][..j] == ys[..j];
  }

  /** The outer loop's step: once row xs[i] is complete, the pairs of xs[..i + 1] have been visited. */
  lemma {:induction false} AllPairsNextRow<A, B>(xs: seq<A>, ys: seq<B>, i: nat)
    requires i < |xs|
    ensures AllPairs(xs[..i], ys) + Row(xs[i], ys) == AllPairs(xs[..i + 1], ys)
  {
    assert xs[..i + 1] == xs[..i] + [xs[i]];
    AllPairsSnoc(xs[..i], xs[i], ys);
  }

  lemma {:induction false} MulStep(n: nat, m: nat)
    ensures (n + 1) * m == n * m + m
  {
  }

  /** One more pass of the outer loop appends one row. */
  lemma {:induction false} AllPairsSnoc<A, B>(xs: seq<A>, x: A, ys: seq<B>)
    ensures AllPairs(xs + [x], ys) == AllPairs(xs, ys) + Row(x, ys)
  {
    assert (xs + [x])[..|xs|] == xs;
  }

  /** Visiting the stock list in two halves visits the pairs of each half in turn. */
  lemma {:induction false} AllPairsAppend<A, B>(a: seq<A>, b: seq<A>, ys: seq<B>)
    ensures AllPairs(a + b, ys) == AllPairs(a, ys) + AllPairs(b, ys)
  {
    if b == [] {
      assert a + b == a;
    } else {
      var front := b[..|b| - 1];
      var x := b[|b| - 1];
      assert b == front + [x];
      assert a + b == (a + front) + [x];
      AllPairsAppend(a, front, ys);
      AllPairsSnoc(a + front, x, ys);
      AllPairsSnoc(front, x, ys);
    }
  }

  /** There are |xs| * |ys| pairs. */
  lemma {:induction false} AllPairsLength<A, B>(xs: seq<A>, ys: seq<B>)
    ensures |AllPairs(xs, ys)| == |xs| * |ys|
  {
    if xs != [] {
      AllPairsLength(xs[..|xs| - 1], ys);
      MulStep(|xs| - 1, |ys|);
    }
  }

  /** The visiting order around stock file i: the rows before it, its row, the rows after it. */
  lemma {:induction false} AllPairsSplit<A, B>(xs: seq<A>, ys: seq<B>, i: nat)
    requires i < |xs|
    ensures AllPairs(xs, ys) == AllPairs(xs[..i], ys) + Row(xs[i], ys) + AllPairs(xs[i + 1..], ys)
  {
    var before, rest := xs[..i], xs[i + 1..];
    assert xs == (before + [xs[i]]) + rest;
    AllPairsAppend(before + [xs[i]], rest, ys);
    AllPairsSnoc(before, xs[i], ys);
  }

  /** Row i of the visiting order starts after the i rows before it. */
  lemma {:induction false} AllPairsEntry<A, B>(xs: seq<A>, ys: seq<B>, i: nat, j: nat)
    requires i < |xs| && j < |ys|
    ensures |AllPairs(xs[..i], ys)| + j < |AllPairs(xs, ys)|
    ensures AllPairs(xs, ys)[|AllPairs(xs[..i], ys)| + j] == (xs[i], ys[j])
  {
    AllPairsSplit(xs, ys, i);
    var q, r, t := AllPairs(xs[..i], ys), Row(xs[i], ys), AllPairs(xs[i + 1..], ys);
    var qr := q + r;
    assert qr[|q| + j] == r[j];
    assert (qr + t)[|q| + j] == qr[|q| + j];
  }

  /** Pair number i * |ys| + j is (xs[i], ys[j]). */
  lemma {:induction false} AllPairsAt<A, B>(xs: seq<A>, ys: seq<B>, i: nat, j: nat)
    requires i < |xs| && j < |ys|
    ensures 0 <= i * |ys| + j < |AllPairs(xs, ys)| && AllPairs(xs, ys)[i * |ys| + j] == (xs[i], ys[j])
  {
    var front := xs[..i];
    assert |front| == i;
    AllPairsLength(front, ys);
    var c := |AllPairs(front, ys)|;
    assert c == i * |ys|;
    AllPairsEntry(xs, ys, i, j);
    assert c + j < |AllPairs(xs, ys)| && AllPairs(xs, ys)[c + j] == (xs[i], ys[j]);
  }

  /** Every visited pair is made of a listed stock file and a listed template, and every such pair is visited. */
  lemma {:induction false} AllPairsMembers<A, B>(xs: seq<A>, ys: seq<B>)
    ensures forall e :: e in AllPairs(xs, ys) ==> e.0 in xs && e.1 in ys
    ensures forall x, y :: x in xs && y in ys ==> (x, y) in AllPairs(xs, ys)
  {
    if xs != [] {
      var front, last := xs[..|xs| - 1], xs[|xs| - 1];
      AllPairsMembers(front, ys);
      assert xs == front + [last];
      var p, r := AllPairs(front, ys), Row(last, ys);
      assert AllPairs(xs, ys) == p + r;
      forall e | e in r ensures e.0 == last && e.1 in ys {
        var k :| 0 <= k < |r| && r[k] == e;
      }
      forall x, y | x in xs && y in ys ensures (x, y) in p + r {
        if x == last {
          var j :| 0 <= j < |ys| && ys[j] == y;
          assert r[j] == (x, y);
        } else {
          assert x in front;
          assert (x, y) in p;
        }
      }
    }
  }

  /** A row visits each template once when the template list has no repetitions. */
  lemma {:induction false} RowNoDuplicates<A, B>(x: A, ys: seq<B>)
    requires NoDuplicates(ys)
    ensures NoDuplicates(Row(x, ys))
  {
    var r := Row(x, ys);
    forall a, b | 0 <= a < b < |r| ensures r[a] != r[b] {
      assert r[a].1 == ys[a] && r[b].1 == ys[b];
    }
  }

  /** When neither list repeats an entry, no pair is visited twice. */
  lemma {:induction false} AllPairsExactlyOnce<A, B>(xs: seq<A>, ys: seq<B>)
    requires NoDuplicates(xs) && NoDuplicates(ys)
    ensures NoDuplicates(AllPairs(xs, ys))
  {
    if xs != [] {
      var front, last := xs[..|xs| - 1], xs[|xs| - 1];
      assert NoDuplicates(front) by {
        forall a, b | 0 <= a < b < |front| ensures front[a] != front[b] {
          assert front[a] == xs[a] && front[b] == xs[b];
        }
      }
      assert last !in front by {
        forall a | 0 <= a < |front| ensures front[a] != last {
          assert front[a] == xs[a];
        }
      }
      AllPairsExactlyOnce(front, ys);
      RowNoDuplicates(last, ys);
      AllPairsMembers(front, ys);
      var p, r := AllPairs(front, ys), Row(last, ys);
      assert forall k :: 0 <= k < |r| ==> r[k].0 == last;
      forall e | e in p ensures e !in r {
        assert e.0 in front;
      }
      NoDuplicatesConcat(p, r);
    }
  }

  /** What the loop body produced for pair number i * |ys| + j is its result for (xs[i], ys[j]). */
  lemma {:induction false} MapAllPairsAt<E, A, B, C>(env: E, f: (E, A, B) -> C, xs: seq<A>, ys: seq<B>, i: nat, j: nat)
    requires i < |xs| && j < |ys|
    ensures 0 <= i * |ys| + j < |MapPairs(env, f, AllPairs(xs, ys))|
    ensures MapPairs(env, f, AllPairs(xs, ys))[i * |ys| + j] == f(env, xs[i], ys[j])
  {
    AllPairsAt(xs, ys, i, j);
    MapPairsAt(env, f, AllPairs(xs, ys), i * |ys| + j);
  }

  /** The loop body runs |xs| * |ys| times, and not at all when either list is empty. */
  lemma {:induction false} MapAllPairsCount<E, A, B, C>(env: E, f: (E, A, B) -> C, xs: seq<A>, ys: seq<B>)
    ensures |MapPairs(env, f, AllPairs(xs, ys))| == |xs| * |ys|
    ensures MapPairs(env, f, AllPairs(xs, ys)) == [] <==> xs == [] || ys == []
  {
    AllPairsLength(xs, ys);
    if xs != [] && ys != [] {
      MulStep(|xs| - 1, |ys|);
    }
  }

  /** Mapping a concatenation maps each part. */
  lemma {:induction false} MapPairsAppend<E, A, B, C>(env: E, f: (E, A, B) -> C, p: seq<(A, B)>, q: seq<(A, B)>)
    ensures MapPairs(env, f, p + q) == MapPairs(env, f, p) + MapPairs(env, f, q)
  {
    if q == [] {
      assert p + q == p;
    } else {
      var front, last := q[..|q| - 1], q[|q| - 1];
      assert q == front + [last];
      assert p + q == (p + front) + [last];
      MapPairsAppend(env, f, p, front);
      MapPairsSnoc(env, f, p + front, last.0, last.1);
      MapPairsSnoc(env, f, front, last.0, last.1);
    }
  }

  /** The inner loop's step: the results for row x grow by the one for (x, ys[j]). */
  lemma {:induction false} MapRowStep<E, A, B, C>(env: E, f: (E, A, B) -> C, x: A, ys: seq<B>, j: nat)
    requires j < |ys|
    ensures MapPairs(env, f, Row(x, ys[..j + 1])) == MapPairs(env, f, Row(x, ys[..j])) + [f(env, x, ys[j])]
  {
    RowSnoc(x, ys, j);
    MapPairsSnoc(env, f, Row(x, ys[..j]), x, ys[j]);
  }

  /** The outer loop's step: the results so far followed by row xs[i]'s are the results for xs[..i + 1]. */
  lemma {:induction false} MapAllPairsNextRow<E, A, B, C>(env: E, f: (E, A, B) -> C, xs: seq<A>, ys: seq<B>, i: nat)
    requires i < |xs|
    ensures MapPairs(env, f, AllPairs(xs[..i], ys)) + MapPairs(env, f, Row(xs[i], ys))
            == MapPairs(env, f, AllPairs(xs[..i + 1], ys))
  {
    AllPairsNextRow(xs, ys, i);
    MapPairsAppend(env, f, AllPairs(xs[..i], ys), Row(xs[i], ys));
  }
}
