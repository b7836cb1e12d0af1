/** Small shared datatypes, and facts about sequences and strings. */
module Prelude {

  datatype Option<+T> = None | Some(value: T)

  /** Every element occurs once. */
  ghost predicate NoDups<T(!new)>(s: seq<T>) {
    forall i, j :: 0 <= i < j < |s| ==> s[i] != s[j]
  }

  /** `order` lists every element of `s` exactly once: one possible visiting order of a Go map. */
  ghost predicate Enumerates<T(!new)>(order: seq<T>, s: set<T>) {
    NoDups(order) && forall x :: x in order <==> x in s
  }

  lemma FirstOfConcat<T>(a: seq<T>, b: seq<T>)
    requires |a| > 0
    ensures (a + b)[0] == a[0] && (a + b)[1..] == a[1..] + b
  {
  }

  lemma Assoc<T>(a: seq<T>, b: seq<T>, c: seq<T>)
    ensures (a + b) + c == a + (b + c)
  {
  }

  lemma SomeElement<T>(s: seq<T>)
    ensures s != [] ==> exists x :: x in s
  {
    if s != [] {
      assert s[0] in s;
    }
  }

  lemma SliceAppend<T>(s: seq<T>, i: nat)
    requires i < |s|
    ensures s[..i + 1] == s[..i] + [s[i]]
  {
  }

  /** The state after `items` are handled in order, the first of them as item number k. */
  function RunAll<S, M>(step: (S, M, nat) -> S, s: S, items: seq<M>, k: nat): S
    decreases |items|
  {
    if items == [] then s else RunAll(step, step(s, items[0], k), items[1..], k + 1)
  }

  lemma {:induction false} RunConcat<S, M>(step: (S, M, nat) -> S, s: S, a: seq<M>, b: seq<M>, k: nat)
    ensures RunAll(step, s, a + b, k) == RunAll(step, RunAll(step, s, a, k), b, k + |a|)
    decreases |a|
  {
    if a == [] {
      assert a + b == b;
    } else {
      assert (a + b)[1..] == a[1..] + b;
      RunConcat(step, step(s, a[0], k), a[1..], b, k + 1);
    }
  }

  lemma RunThen<S, M>(step: (S, M, nat) -> S, s: S, mid: S, after: S, a: seq<M>, b: seq<M>, k: nat)
    requires RunAll(step, s, a, k) == mid && RunAll(step, mid, b, k + |a|) == after
    ensures RunAll(step, s, a + b, k) == after
  {
    RunConcat(step, s, a, b, k);
  }

  lemma RunHalves<S, M>(step: (S, M, nat) -> S, s: S, mid: S, after: S, a: seq<M>, b: seq<M>)
    requires RunAll(step, s, a, 0) == mid && RunAll(step, mid, b, |a|) == after
    ensures RunAll(step, s, a + b, 0) == after
  {
    assert 0 + |a| == |a|;
    RunConcat(step, s, a, b, 0);
  }

  lemma RunOne<S, M>(step: (S, M, nat) -> S, s: S, item: M, k: nat)
    ensures RunAll(step, s, [item], k) == step(s, item, k)
  {
    assert [item][1..] == [];
  }

  /** Something holds whenever an item is handled. */
  predicate Throughout<S, M>(step: (S, M, nat) -> S, ok: (S, M, nat) -> bool, s: S, items: seq<M>, k: nat)
    decreases |items|
  {
    items == [] || (ok(s, items[0], k) && Throughout(step, ok, step(s, items[0], k), items[1..], k + 1))
  }

  lemma {:induction false} ThroughoutBoth<S, M>(step: (S, M, nat) -> S, ok: (S, M, nat) -> bool, s: S, a: seq<M>,
                                                b: seq<M>, k: nat)
    requires Throughout(step, ok, s, a, k) && Throughout(step, ok, RunAll(step, s, a, k), b, k + |a|)
    ensures Throughout(step, ok, s, a + b, k)
    decreases |a|
  {
    if a == [] {
      assert a + b == b;
    } else {
      assert (a + b)[1..] == a[1..] + b;
      ThroughoutBoth(step, ok, step(s, a[0], k), a[1..], b, k + 1);
    }
  }

  lemma ThroughoutHalves<S, M>(step: (S, M, nat) -> S, ok: (S, M, nat) -> bool, s: S, mid: S, a: seq<M>, b: seq<M>)
    requires Throughout(step, ok, s, a, 0) && RunAll(step, s, a, 0) == mid && Throughout(step, ok, mid, b, |a|)
    ensures Throughout(step, ok, s, a + b, 0)
  {
    assert 0 + |a| == |a|;
    ThroughoutBoth(step, ok, s, a, b, 0);
  }

  lemma ThroughoutOne<S, M>(step: (S, M, nat) -> S, ok: (S, M, nat) -> bool, s: S, item: M, k: nat)
    requires ok(s, item, k)
    ensures Throughout(step, ok, s, [item], k)
  {
    assert [item][1..] == [];
  }

  lemma {:induction false} ThroughoutAlways<S(!new), M>(step: (S, M, nat) -> S, ok: (S, M, nat) -> bool, s: S,
                                                        items: seq<M>, k: nat)
    requires forall s, m, i: nat :: m in items ==> ok(s, m, i)
    ensures Throughout(step, ok, s, items, k)
    decreases |items|
  {
    if items != [] {
      assert items[0] in items;
      ThroughoutAlways(step, ok, step(s, items[0], k), items[1..], k + 1);
    }
  }

  predicate IsDigit(c: char) {
    '0' <= c <= '9'
  }

  predicate IsSpaceChar(c: char) {
    c == ' '
  }

  function TrimLeft(s: string, cut: char -> bool): (r: string)
    ensures |r| <= |s|
    ensures r != "" ==> !cut(r[0])
  {
    if s != "" && cut(s[0]) then TrimLeft(s[1..], cut) else s
  }
}
