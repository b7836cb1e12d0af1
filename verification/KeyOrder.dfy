/** Sorting tag keys byte by byte, as sort.Strings does. */
module KeyOrder {
  import opened Prelude

  /** Strictly before in byte order; a proper prefix comes first. */
  predicate Before(a: string, b: string)
    decreases |a|
  {
    b != "" && (a == "" || a[0] < b[0] || (a[0] == b[0] && Before(a[1..], b[1..])))
  }

  lemma {:induction false} Total(a: string, b: string)
    ensures a != b ==> Before(a, b) || Before(b, a)
    ensures !(Before(a, b) && Before(b, a)) && !Before(a, a)
    decreases |a|
  {
    if a != "" && b != "" && a[0] == b[0] {
      Total(a[1..], b[1..]);
      assert a == [a[0]] + a[1..] && b == [b[0]] + b[1..];
    }
    if a != "" {
      Total(a[1..], a[1..]);
    }
  }

  lemma {:induction false} Transitive(a: string, b: string, c: string)
    requires Before(a, b) && Before(b, c)
    ensures Before(a, c)
    decreases |a|
  {
    if a != "" && a[0] == b[0] == c[0] {
      Transitive(a[1..], b[1..], c[1..]);
    }
  }

  ghost predicate Sorted(keys: seq<string>) {
    forall i, j :: 0 <= i < j < |keys| ==> Before(keys[i], keys[j])
  }

  /** One step of an insertion sort. */
  function Insert(keys: seq<string>, k: string): (r: seq<string>)
    requires Sorted(keys) && k !in keys
    ensures Sorted(r) && forall x :: x in r <==> x == k || x in keys
  {
    if keys == [] then [k]
    else if Before(k, keys[0]) then
      FrontInsert(keys, k);
      [k] + keys
    else
      Total(k, keys[0]);
      TailSorted(keys);
      var rest := Insert(keys[1..], k);
      BackInsert(keys, k, rest);
      [keys[0]] + rest
  }

  lemma TailSorted(keys: seq<string>)
    requires Sorted(keys) && keys != []
    ensures Sorted(keys[1..]) && forall x :: x in keys <==> x == keys[0] || x in keys[1..]
  {
    assert keys == [keys[0]] + keys[1..];
  }

  lemma FrontInsert(keys: seq<string>, k: string)
    requires Sorted(keys) && keys != [] && Before(k, keys[0])
    ensures Sorted([k] + keys)
  {
    forall j | 0 < j < |keys| ensures Before(k, keys[j]) {
      Transitive(k, keys[0], keys[j]);
    }
  }

  lemma BackInsert(keys: seq<string>, k: string, rest: seq<string>)
    requires Sorted(keys) && keys != [] && Before(keys[0], k) && Sorted(rest)
    requires forall x :: x in rest <==> x == k || x in keys[1..]
    ensures Sorted([keys[0]] + rest)
  {
    var r := [keys[0]] + rest;
    forall i, j | 0 <= i < j < |r| ensures Before(r[i], r[j]) {
      if i == 0 {
        assert r[j] in rest;
        if r[j] != k {
          var m :| 0 <= m < |keys[1..]| && keys[1..][m] == r[j];
          assert Before(keys[0], keys[m + 1]);
        }
      }
    }
  }

  lemma SortedHasNoDups(keys: seq<string>)
    requires Sorted(keys)
    ensures NoDups(keys)
  {
    forall i, j | 0 <= i < j < |keys| ensures keys[i] != keys[j] {
      Total(keys[i], keys[j]);
    }
  }

  /** Two sorted lists of the same keys are the same list: the encoding does not depend on the order in
      which the map was walked. */
  lemma {:induction false} SortedIsUnique(a: seq<string>, b: seq<string>)
    requires Sorted(a) && Sorted(b) && forall x :: x in a <==> x in b
    ensures a == b
    decreases |a|
  {
    if a == [] || b == [] {
      SomeElement(a);
      SomeElement(b);
    } else {
      SameHead(a, b);
      TailSorted(a);
      TailSorted(b);
      SortedHasNoDups(a);
      SortedHasNoDups(b);
      assert a[0] !in a[1..] && b[0] !in b[1..];
      SortedIsUnique(a[1..], b[1..]);
      assert a == [a[0]] + a[1..] && b == [b[0]] + b[1..];
    }
  }

  lemma SameHead(a: seq<string>, b: seq<string>)
    requires Sorted(a) && Sorted(b) && a != [] && b != [] && forall x :: x in a <==> x in b
    ensures a[0] == b[0]
  {
    assert a[0] in a && b[0] in b;
    var i :| 0 <= i < |b| && b[i] == a[0];
    var j :| 0 <= j < |a| && a[j] == b[0];
    if a[0] != b[0] {
      assert Before(b[0], b[i]) && Before(a[0], a[j]);
      Total(a[0], b[0]);
    }
  }

  /** The keys in byte order. */
  method SortKeys(keys: set<string>) returns (r: seq<string>)
    ensures Sorted(r) && Enumerates(r, keys)
  {
    var todo := keys;
    r := [];
    while todo != {}
      invariant todo <= keys && Sorted(r) && forall x :: x in r <==> x in keys && x !in todo
    {
      var k :| k in todo;
      r := Insert(r, k);
      todo := todo - {k};
    }
    SortedHasNoDups(r);
  }
}
