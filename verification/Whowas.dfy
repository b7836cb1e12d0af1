/** The history of departed nicks: a ring of the most recent entries. */
module Whowas {
  import opened Prelude
  import opened CaseMap

  datatype Entry = Entry(nick: string, user: string, host: string, realname: string, server: string, at: int)

  /** The last `n` entries of a log. */
  function Last(log: seq<Entry>, n: nat): seq<Entry> {
    if |log| <= n then log else log[|log| - n..]
  }

  /** The entries for a folded nick, newest first. */
  function Find(m: CaseMapping, log: seq<Entry>, key: string): seq<Entry> {
    if log == [] then []
    else Hit(m, log[|log| - 1], key) + Find(m, log[..|log| - 1], key)
  }

  function Hit(m: CaseMapping, e: Entry, key: string): seq<Entry> {
    if Fold(m, e.nick) == key then [e] else []
  }

  /** Find gives the entries with that nick and no others. */
  lemma {:induction false} FindIsFilter(m: CaseMapping, log: seq<Entry>, key: string)
    ensures forall e :: e in Find(m, log, key) <==> e in log && Fold(m, e.nick) == key
    ensures |Find(m, log, key)| <= |log|
    decreases |log|
  {
    if log != [] {
      FindIsFilter(m, log[..|log| - 1], key);
      assert log == log[..|log| - 1] + [log[|log| - 1]];
    }
  }

  /** What was recorded later is found first. */
  lemma {:induction false} FindIsNewestFirst(m: CaseMapping, older: seq<Entry>, newer: seq<Entry>, key: string)
    ensures Find(m, older + newer, key) == Find(m, newer, key) + Find(m, older, key)
    decreases |newer|
  {
    if newer == [] {
      assert older + newer == older && [] + Find(m, older, key) == Find(m, older, key);
    } else {
      var all, e := older + newer, newer[|newer| - 1];
      assert all[..|all| - 1] == older + newer[..|newer| - 1] && all[|all| - 1] == e;
      FindIsNewestFirst(m, older, newer[..|newer| - 1], key);
      Assoc(Hit(m, e, key), Find(m, newer[..|newer| - 1], key), Find(m, older, key));
    }
  }

  /** Non-positive `max` stands for all. */
  function AtMost(found: seq<Entry>, max: int): seq<Entry> {
    if 0 < max < |found| then found[..max] else found
  }

  function Answer(m: CaseMapping, log: seq<Entry>, cap: nat, nick: string, max: int): seq<Entry> {
    if nick == "" then [] else AtMost(Find(m, Last(log, cap), Fold(m, nick)), max)
  }

  /** The history holds the last `cap` entries, and of those for the nick the newest `max` are answered, or all of
      them when `max` is not positive. */
  lemma WhatIsAnswered(m: CaseMapping, older: seq<Entry>, held: seq<Entry>, cap: nat, nick: string, max: int)
    requires nick != "" && |held| <= cap && (older != [] ==> |held| == cap)
    ensures var found, answer := Find(m, held, Fold(m, nick)), Answer(m, older + held, cap, nick, max);
            && answer <= found
            && |answer| == if max <= 0 || |found| <= max then |found| else max
  {
    var log := older + held;
    assert |log| <= cap ==> log == held;
    assert |log| > cap ==> log[|log| - cap..] == held;
  }

  class Whowas {
    const mapping: CaseMapping
    const cap: nat
    var entries: seq<Entry>
    var head: nat
    var full: bool
    /** Everything ever recorded. */
    ghost var log: seq<Entry>

    /** The buffer first grows and then wraps: the oldest entry is then at `head`. */
    ghost predicate Valid()
      reads this
    {
      && cap > 0
      && (!full ==> |entries| < cap && entries == log)
      && (full ==>
            && |entries| == cap && head < cap && |log| >= cap
            && entries[head..] + entries[..head] == Last(log, cap))
    }

    constructor (capacity: int, mapping: CaseMapping)
      ensures Valid() && log == [] && this.mapping == mapping && cap == if capacity <= 0 then 1024 else capacity
    {
      this.mapping := mapping;
      cap := if capacity <= 0 then 1024 else capacity;
      entries, head, full := [], 0, false;
      log := [];
    }

    /** Entries without a nick are dropped. */
    method Record(e: Entry)
      requires Valid()
      modifies this
      ensures Valid() && log == if e.nick == "" then old(log) else old(log) + [e]
    {
      if e.nick == "" {
        return;
      }
      if !full {
        entries := entries + [e];
        log := log + [e];
        if |entries| == cap {
          full := true;
          head := 0;
        }
        return;
      }
      Overwrite(e);
    }

    method Overwrite(e: Entry)
      requires Valid() && full
      modifies this`entries, this`head, this`log
      ensures Valid() && log == old(log) + [e]
    {
      var next := (head + 1) % cap;
      Wrap(head + 1, cap);
      LastOfMore(log, cap, e);
      Turned(entries, head, e, next);
      entries := entries[head := e];
      log := log + [e];
      head := next;
    }

    /** Where the entry recorded `i` entries before the newest is kept. */
    method IndexBack(i: nat) returns (idx: nat)
      requires Valid() && i < |entries|
      ensures idx < |entries| && entries[idx] == Last(log, cap)[|entries| - 1 - i]
    {
      var n := |entries|;
      if full {
        idx := (head - 1 - i + cap) % cap;
        Wrap(head - 1 - i + cap, cap);
        assert entries[idx] == (entries[head..] + entries[..head])[n - 1 - i];
      } else {
        idx := n - 1 - i;
      }
    }

    method Lookup(nick: string, max: int) returns (out: seq<Entry>)
      requires Valid()
      ensures out == Answer(mapping, log, cap, nick, max)
    {
      if nick == "" {
        return [];
      }
      var key := FoldLoop(mapping, nick);
      out := Walk(key, max);
    }

    lemma WindowSize()
      requires Valid()
      ensures |Last(log, cap)| == |entries|
    {
    }

    /** From the newest entry to the oldest, until enough are found. */
    method Walk(key: string, max: int) returns (out: seq<Entry>)
      requires Valid()
      ensures out == AtMost(Find(mapping, Last(log, cap), key), max)
    {
      hide Last, Find;
      out := [];
      var n := |entries|;
      WindowSize();
      ghost var window := Last(log, cap);
      ghost var rest := Find(mapping, window, key);
      ghost var all := rest;
      assert window[..n] == window && all == [] + rest;
      FindNothing(mapping, key);
      assert window[..0] == [];
      var i := 0;
      while i < n
        invariant 0 <= i <= n == |window|
        invariant rest == Find(mapping, window[..n - i], key) && all == out + rest
        invariant max > 0 ==> |out| < max
      {
        var idx := IndexBack(i);
        var e := entries[idx];
        var folded := FoldLoop(mapping, e.nick);
        FindStep(mapping, window, key, n - i, out);
        assert Hit(mapping, e, key) == if folded == key then [e] else [];
        i := i + 1;
        rest := Find(mapping, window[..n - i], key);
        if folded != key {
          assert out + [] == out;
          continue;
        }
        out := out + [e];
        if max > 0 && |out| >= max {
          Enough(out, rest, max);
          return;
        }
      }
      Exhausted(out, max);
    }
  }

  lemma Enough(out: seq<Entry>, rest: seq<Entry>, max: int)
    requires |out| == max > 0
    ensures AtMost(out + rest, max) == out
  {
    assert (out + rest)[..max] == out;
    assert rest == [] ==> out + rest == out;
  }

  lemma FindNothing(m: CaseMapping, key: string)
    ensures Find(m, [], key) == []
  {
  }

  lemma Exhausted(out: seq<Entry>, max: int)
    requires max > 0 ==> |out| < max
    ensures AtMost(out + [], max) == out
  {
    assert out + [] == out;
  }

  lemma FindStep(m: CaseMapping, window: seq<Entry>, key: string, left: nat, out: seq<Entry>)
    requires 0 < left <= |window|
    ensures out + Find(m, window[..left], key)
            == (out + Hit(m, window[left - 1], key)) + Find(m, window[..left - 1], key)
  {
    assert window[..left][..left - 1] == window[..left - 1];
    Assoc(out, Hit(m, window[left - 1], key), Find(m, window[..left - 1], key));
  }

  lemma LastOfMore(log: seq<Entry>, cap: nat, e: Entry)
    requires 0 < cap <= |log|
    ensures Last(log + [e], cap) == Last(log, cap)[1..] + [e]
  {
  }

  /** The ring read from its head, once the entry at the head is replaced and the head has moved on. */
  lemma Turned(entries: seq<Entry>, head: nat, e: Entry, next: nat)
    requires head < |entries| && next == if head + 1 == |entries| then 0 else head + 1
    ensures var now := entries[head := e];
            now[next..] + now[..next] == (entries[head..] + entries[..head])[1..] + [e]
  {
    var now, window := entries[head := e], entries[head..] + entries[..head];
    assert now[..head] == entries[..head];
    if next == 0 {
      assert window[1..] == entries[..head];
      assert now[0..] + now[..0] == now == now[..head] + [e];
    } else {
      assert window[1..] == entries[next..] + entries[..head];
      assert now[next..] == entries[next..] && now[..next] == now[..head] + [e];
      Assoc(entries[next..], entries[..head], [e]);
    }
  }

  lemma Wrap(x: int, cap: nat)
    requires 0 < cap && 0 <= x < 2 * cap
    ensures x % cap == if x < cap then x else x - cap
  {
  }
}
