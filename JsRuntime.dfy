/**
 The pieces of JavaScript's semantics that the three batch scripts rely on:
 truthiness, the value of `a && b`, reading a property, `String.prototype.endsWith`
 and `Array.prototype.filter`.
 */
module JsRuntime {

  datatype Option<+T> = None | Some(value: T)

  /**
   A JavaScript value, reduced to the kinds the image classifier can meet. An
   `Object` stands for the record `image-size` returns; only its `width` and
   `height` properties are observed. Numbers are whole (image dimensions); NaN
   and fractions are not represented.
   */
  datatype Value =
    | Undefined
    | Null
    | Boolean(b: bool)
    | Number(n: int)
    | Object(width: Value, height: Value)

  /** ToBoolean: the falsy values are undefined, null, false and 0. */
  predicate Truthy(v: Value) {
    match v
    case Undefined => false
    case Null => false
    case Boolean(b) => b
    case Number(n) => n != 0
    case Object(_, _) => true
  }

  /** `a && b`: the left operand when it is falsy, otherwise the right one. */
  function And(a: Value, b: Value): (r: Value)
    ensures Truthy(r) <==> Truthy(a) && Truthy(b)
    ensures !Truthy(a) ==> r == a
    ensures Truthy(a) ==> r == b
  {
    if Truthy(a) then b else a
  }

  /**
   `v.width`. Reading a missing property of a primitive gives undefined. (On
   undefined or null the read would throw, but the scripts only read a property
   behind a `&&` that has already found the object truthy.)
   */
  function Width(v: Value): Value {
    if v.Object? then v.width else Undefined
  }

  /** `v.height`, read as `Width` is. */
  function Height(v: Value): Value {
    if v.Object? then v.height else Undefined
  }

  /** `s.endsWith(suffix)`: a case-sensitive comparison of the last characters. */
  predicate EndsWith(s: string, suffix: string) {
    |suffix| <= |s| && s[|s| - |suffix|..] == suffix
  }

  /** No element occurs twice (a directory listing has this property). */
  predicate NoDuplicates<T(==)>(s: seq<T>) {
    forall i, j :: 0 <= i < j < |s| ==> s[i] != s[j]
  }

  /** `s.filter(keep)`: the elements `keep` accepts, in their original order. */
  function Filter<T(==,!new)>(s: seq<T>, keep: T -> bool): (r: seq<T>)
    ensures |r| <= |s|
    ensures forall x :: x in r <==> x in s && keep(x)
  {
    if s == [] then []
    else (if keep(s[0]) then [s[0]] else []) + Filter(s[1..], keep)
  }

  /** Filtering a concatenation filters each part: the order of the kept elements is the listing's. */
  lemma {:induction false} FilterAppend<T(!new)>(a: seq<T>, b: seq<T>, keep: T -> bool)
    ensures Filter(a + b, keep) == Filter(a, keep) + Filter(b, keep)
  {
    if a == [] {
      assert a + b == b;
    } else {
      assert (a + b)[0] == a[0];
      assert (a + b)[1..] == a[1..] + b;
      FilterAppend(a[1..], b, keep);
    }
  }

  /** Filtering a listing without repetitions gives a list without repetitions. */
  lemma {:induction false} FilterNoDuplicates<T(!new)>(s: seq<T>, keep: T -> bool)
    ensures NoDuplicates(s) ==> NoDuplicates(Filter(s, keep))
  {
    if s != [] && NoDuplicates(s) {
      var rest := Filter(s[1..], keep);
      assert NoDuplicates(s[1..]) by {
        forall i, j | 0 <= i < j < |s[1..]| ensures s[1..][i] != s[1..][j] {
          assert s[1..][i] == s[i + 1] && s[1..][j] == s[j + 1];
        }
      }
      FilterNoDuplicates(s[1..], keep);
      assert s[0] !in s[1..] by {
        forall k | 0 <= k < |s[1..]| ensures s[1..][k] != s[0] {
          assert s[1..][k] == s[k + 1];
        }
      }
      assert s[0] !in rest;
      var head := if keep(s[0]) then [s[0]] else [];
      assert Filter(s, keep) == head + rest;
      forall i, j | 0 <= i < j < |head + rest| ensures (head + rest)[i] != (head + rest)[j] {
        if i < |head| {
          assert (head + rest)[i] == s[0];
          assert (head + rest)[j] == rest[j - |head|];
        } else {
          assert (head + rest)[i] == rest[i - |head|];
          assert (head + rest)[j] == rest[j - |head|];
        }
      }
    }
  }

  /** Two lists without repetitions and without a common element concatenate to a list without repetitions. */
  lemma NoDuplicatesConcat<T>(a: seq<T>, b: seq<T>)
    requires NoDuplicates(a) && NoDuplicates(b)
    requires forall x :: x in a ==> x !in b
    ensures NoDuplicates(a + b)
  {
    forall i, j | 0 <= i < j < |a + b| ensures (a + b)[i] != (a + b)[j] {
      if j < |a| {
        assert (a + b)[i] == a[i] && (a + b)[j] == a[j];
      } else if i >= |a| {
        assert (a + b)[i] == b[i - |a|] && (a + b)[j] == b[j - |a|];
      } else {
        assert (a + b)[i] == a[i] && (a + b)[j] == b[j - |a|];
        assert a[i] in a && b[j - |a|] in b;
      }
    }
  }
}
