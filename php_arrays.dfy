/**
 * The capture maps of the deferred-provider sniff are PHP arrays keyed by
 * token index. A PHP array is ordered: assigning to a key it already holds
 * replaces the value where it stands, a new key goes at the end, and
 * `array_diff` keeps the surviving entries with their keys, in order.
 */
module PhpArrays {

  datatype Entry = Entry(key: nat, value: string)

  type PhpArray = seq<Entry>

  /** The values of an array, as a set of strings. */
  function Values(a: PhpArray): set<string>
  {
    set e | e in a :: e.value
  }

  predicate HasKey(a: PhpArray, k: nat)
  {
    exists e :: e in a && e.key == k
  }

  /** One entry per key. */
  ghost predicate UniqueKeys(a: PhpArray)
  {
    forall i, j :: 0 <= i < j < |a| ==> a[i].key != a[j].key
  }

  /** `$a[$k] = $v`: an existing key keeps its place, a new key goes last. */
  function Assign(a: PhpArray, k: nat, v: string): (r: PhpArray)
  {
    if a == [] then [Entry(k, v)]
    else if a[0].key == k then [Entry(k, v)] + a[1..]
    else [a[0]] + Assign(a[1..], k, v)
  }

  /** After `$a[$k] = $v` the array holds `k => v`, keeps every entry under
      another key, and gains nothing else. */
  lemma {:induction false} AssignContents(a: PhpArray, k: nat, v: string)
    ensures Entry(k, v) in Assign(a, k, v)
    ensures forall e :: e in Assign(a, k, v) ==> e == Entry(k, v) || e in a
    ensures forall e :: e in a && e.key != k ==> e in Assign(a, k, v)
  {
    if a != [] {
      assert forall e :: e in a ==> e == a[0] || e in a[1..];
      assert forall e :: e in a[1..] ==> e in a;
      if a[0].key != k {
        AssignContents(a[1..], k, v);
      }
    }
  }

  /** A new key goes at the end; an existing one keeps the length. */
  lemma {:induction false} AssignPlacement(a: PhpArray, k: nat, v: string)
    ensures !HasKey(a, k) ==> Assign(a, k, v) == a + [Entry(k, v)]
    ensures HasKey(a, k) ==> |Assign(a, k, v)| == |a|
  {
    if a != [] {
      assert HasKey(a, k) <==> a[0].key == k || HasKey(a[1..], k) by {
        assert forall e :: e in a ==> e == a[0] || e in a[1..];
        assert forall e :: e in a[1..] ==> e in a;
      }
      if a[0].key != k {
        AssignPlacement(a[1..], k, v);
        if !HasKey(a, k) {
          assert a == [a[0]] + a[1..];
        }
      }
    }
  }

  /** In an array with one entry per key, `$a[$k] = $v` on a key it holds
      replaces that entry where it stands and leaves every other position
      as it was. */
  lemma {:induction false} AssignInPlace(a: PhpArray, k: nat, v: string)
    requires UniqueKeys(a) && HasKey(a, k)
    ensures |Assign(a, k, v)| == |a|
    ensures forall n :: 0 <= n < |a| ==> Assign(a, k, v)[n] == (if a[n].key == k then Entry(k, v) else a[n])
  {
    var r := Assign(a, k, v);
    if a[0].key == k {
      assert forall n :: 0 < n < |a| ==> a[n].key != a[0].key;
    } else {
      var t := a[1..];
      assert UniqueKeys(t) by {
        assert forall i :: 0 <= i < |t| ==> t[i] == a[i + 1];
      }
      assert HasKey(t, k) by {
        var e :| e in a && e.key == k;
        assert e != a[0];
        assert e in t;
      }
      AssignInPlace(t, k, v);
      assert r == [a[0]] + Assign(t, k, v);
      assert forall n :: 0 < n < |a| ==> r[n] == Assign(t, k, v)[n - 1] && a[n] == t[n - 1];
    }
  }

  /** `$a[$k] = $v` keeps one entry per key. */
  lemma {:induction false} AssignUnique(a: PhpArray, k: nat, v: string)
    requires UniqueKeys(a)
    ensures UniqueKeys(Assign(a, k, v))
  {
    if a != [] {
      var r := Assign(a, k, v);
      var tail := r[1..];
      assert tail == a[1..] || tail == Assign(a[1..], k, v);
      assert UniqueKeys(a[1..]);
      if a[0].key != k {
        AssignUnique(a[1..], k, v);
        AssignContents(a[1..], k, v);
      }
      forall j | 0 < j < |r| ensures r[0].key != r[j].key {
        assert r[j] in tail;
        if r[j] != Entry(k, v) {
          assert r[j] in a[1..];
          var m :| 0 <= m < |a[1..]| && a[1..][m] == r[j];
          assert a[m + 1] == r[j];
        }
      }
    }
  }

  /** `array_diff($a, $b)`: the entries of `a` whose value is not a value of
      `b`, with their keys, in the order of `a`. Values are compared as strings. */
  function Diff(a: PhpArray, b: PhpArray): (r: PhpArray)
    ensures |r| <= |a|
  {
    if a == [] then []
    else if a[0].value in Values(b) then Diff(a[1..], b)
    else [a[0]] + Diff(a[1..], b)
  }

  /** An entry survives the diff exactly when it is in `a` and its value is
      not a value of `b`. */
  lemma {:induction false} DiffContents(a: PhpArray, b: PhpArray)
    ensures forall e :: e in Diff(a, b) <==> e in a && e.value !in Values(b)
  {
    if a != [] {
      DiffContents(a[1..], b);
      assert forall e :: e in a ==> e == a[0] || e in a[1..];
      assert forall e :: e in a[1..] ==> e in a;
    }
  }

  /** The diff of an array with one entry per key has one entry per key. */
  lemma {:induction false} DiffUnique(a: PhpArray, b: PhpArray)
    requires UniqueKeys(a)
    ensures UniqueKeys(Diff(a, b))
  {
    if a != [] {
      assert UniqueKeys(a[1..]);
      DiffUnique(a[1..], b);
      if a[0].value !in Values(b) {
        var r := Diff(a, b);
        DiffContents(a[1..], b);
        forall j | 0 < j < |r| ensures r[0].key != r[j].key {
          assert r[j] in Diff(a[1..], b);
          var m :| 0 <= m < |a[1..]| && a[1..][m] == r[j];
          assert a[m + 1] == r[j];
        }
      }
    }
  }

  /** The values a one-sided diff leaves are exactly those the other side lacks. */
  lemma {:induction false} DiffValues(a: PhpArray, b: PhpArray)
    ensures Values(Diff(a, b)) == Values(a) - Values(b)
  {
    var d := Diff(a, b);
    DiffContents(a, b);
    forall v | v in Values(a) - Values(b) ensures v in Values(d) {
      var e :| e in a && e.value == v;
      assert e in d;
    }
    forall v | v in Values(d) ensures v in Values(a) - Values(b) {
      var e :| e in d && e.value == v;
      assert e in a;
    }
  }

  /** Nothing survives the diff exactly when every value of `a` is a value of `b`. */
  lemma {:induction false} DiffEmptyIff(a: PhpArray, b: PhpArray)
    ensures Diff(a, b) == [] <==> Values(a) <= Values(b)
  {
    DiffValues(a, b);
    var d := Diff(a, b);
    if d != [] {
      assert d[0].value in Values(d);
    } else {
      assert Values(d) == {};
      forall v | v in Values(a) ensures v in Values(b) {
        assert v !in Values(a) - Values(b);
      }
    }
  }
}
