/** The in-memory tail of the log, and what a client sees that polls it. */
module LogRing {
  import opened Prelude

  datatype Entry = Entry(number: nat, text: string)

  const DEFAULT_RING_ENTRIES := 10000

  /** A log in which entries are numbered from one. */
  ghost predicate InOrder(log: seq<Entry>) {
    forall i :: 0 <= i < |log| ==> log[i].number == i + 1
  }

  /** The position of the oldest entry still held. */
  function Oldest(log: seq<Entry>, capacity: nat): nat {
    if |log| <= capacity then 0 else |log| - capacity
  }

  /** The held entries with numbers above `number`. */
  function Above(log: seq<Entry>, capacity: nat, number: nat): seq<Entry> {
    if number >= |log| then []
    else if number >= Oldest(log, capacity) then log[number..]
    else log[Oldest(log, capacity)..]
  }

  class RingBuffer {
    const capacity: nat
    const entries: array<Entry>
    var next: nat
    var total: nat
    /** Everything ever appended. */
    ghost var log: seq<Entry>

    ghost predicate Valid()
      reads this, entries
    {
      && capacity == entries.Length > 0 && total == |log| && next == total % capacity && InOrder(log)
      && forall i :: Oldest(log, capacity) <= i < |log| ==> entries[i % capacity] == log[i]
    }

    constructor (capacity: int)
      ensures Valid() && log == [] && fresh(entries)
      ensures this.capacity == if capacity <= 0 then DEFAULT_RING_ENTRIES else capacity
    {
      this.capacity := if capacity <= 0 then DEFAULT_RING_ENTRIES else capacity;
      entries := new Entry[if capacity <= 0 then DEFAULT_RING_ENTRIES else capacity](_ => Entry(0, ""));
      next, total := 0, 0;
      log := [];
    }

    method Append(text: string)
      requires Valid()
      modifies this, entries
      ensures Valid() && log == old(log) + [Entry(|old(log)| + 1, text)]
    {
      total := total + 1;
      var e := Entry(total, text);
      ghost var before := entries[..];
      forall i | Oldest(log, capacity) <= i < |log| && i > |log| - capacity ensures i % capacity != next {
        ModDiffers(i, |log|, capacity);
      }
      entries[next] := e;
      ModNext(|log|, capacity);
      next := (next + 1) % capacity;
      log := log + [e];
    }

    method Snapshot() returns (out: seq<Entry>)
      requires Valid()
      ensures out == log[Oldest(log, capacity)..]
    {
      var count := if total < capacity then total else capacity;
      var start := if total >= capacity then next else 0;
      out := [];
      for i := 0 to count
        invariant out == log[Oldest(log, capacity)..][..i]
      {
        if total >= capacity {
          ModShift(|log|, i, capacity);
        } else {
          ModSmall(i, capacity);
        }
        assert (start + i) % capacity == (Oldest(log, capacity) + i) % capacity;
        SliceAppend(log[Oldest(log, capacity)..], i);
        out := out + [entries[(start + i) % capacity]];
      }
    }

    method Since(number: nat) returns (out: seq<Entry>)
      requires Valid()
      ensures out == Above(log, capacity, number)
    {
      var all := Snapshot();
      for i := 0 to |all|
        invariant forall j :: 0 <= j < i ==> all[j].number <= number
      {
        if all[i].number > number {
          assert i > 0 ==> all[i - 1].number <= number;
          return all[i..];
        }
      }
      assert |all| > 0 ==> all[|all| - 1].number <= number;
      out := [];
    }
  }

  /** A multiple of m is not strictly between 0 and m. */
  lemma NoMultiple(d: int, m: nat)
    requires m > 0
    ensures d * m <= 0 || d * m >= m
  {
    if d >= 1 {
      assert (d - 1) * m >= 0;
    } else {
      assert -d * m >= 0;
    }
  }

  lemma ModDiffers(i: nat, j: nat, capacity: nat)
    requires 0 < capacity && i < j < i + capacity
    ensures i % capacity != j % capacity
  {
    var d := j / capacity - i / capacity;
    NoMultiple(d, capacity);
    assert j - i == d * capacity + (j % capacity - i % capacity);
  }

  lemma ModUnique(x: int, q: int, r: int, m: nat)
    requires m > 0 && x == q * m + r && 0 <= r < m
    ensures x % m == r
  {
    var d := q - x / m;
    assert d * m == x % m - r;
    NoMultiple(d, m);
    NoMultiple(-d, m);
  }

  lemma ModNext(t: nat, capacity: nat)
    requires capacity > 0
    ensures (t % capacity + 1) % capacity == (t + 1) % capacity
  {
    ModAdd(t, 1, capacity);
  }

  lemma ModAdd(t: nat, i: nat, capacity: nat)
    requires capacity > 0
    ensures (t % capacity + i) % capacity == (t + i) % capacity
  {
    var q := t / capacity;
    var x := t % capacity + i;
    assert t + i == (q + x / capacity) * capacity + x % capacity;
    ModUnique(t + i, q + x / capacity, x % capacity, capacity);
  }

  lemma ModShift(t: nat, i: nat, capacity: nat)
    requires 0 < capacity <= t
    ensures (t % capacity + i) % capacity == (t - capacity + i) % capacity
  {
    ModAdd(t, i, capacity);
    var x := t - capacity + i;
    assert t + i == (x / capacity + 1) * capacity + x % capacity;
    ModUnique(t + i, x / capacity + 1, x % capacity, capacity);
  }

  lemma ModSmall(i: nat, capacity: nat)
    requires i < capacity
    ensures i % capacity == i
  {
  }

  // ----- a polling client -----

  datatype Event = Append(text: string) | Poll

  /** The log, the number the client asks after, everything it was sent, and how many entries it missed. */
  datatype Client = Client(log: seq<Entry>, last: nat, got: seq<Entry>, missed: nat)

  const START := Client([], 0, [], 0)

  function Step(c: Client, capacity: nat, event: Event): Client {
    match event
    case Append(text) => c.(log := c.log + [Entry(|c.log| + 1, text)])
    case Poll =>
      var more := Above(c.log, capacity, c.last);
      if more == [] then c
      else c.(last := more[|more| - 1].number, got := c.got + more, missed := c.missed + Overrun(c, capacity))
  }

  /** By how many entries the log has run past what the ring still held for the client. */
  function Overrun(c: Client, capacity: nat): nat {
    if |c.log| - c.last > capacity then |c.log| - c.last - capacity else 0
  }

  function Events(c: Client, capacity: nat, events: seq<Event>): Client
    decreases |events|
  {
    if events == [] then c else Events(Step(c, capacity, events[0]), capacity, events[1..])
  }

  /** Strictly increasing numbers (so no repeats), each with the entry of that number. */
  ghost predicate Faithful(c: Client) {
    && (forall i, j :: 0 <= i < j < |c.got| ==> c.got[i].number < c.got[j].number)
    && (forall i :: 0 <= i < |c.got| ==>
       1 <= c.got[i].number <= c.last <= |c.log| && c.log[c.got[i].number - 1] == c.got[i])
  }

  ghost predicate Inv(c: Client) {
    InOrder(c.log) && Faithful(c) && c.last <= |c.log| && |c.got| + c.missed == c.last
  }

  /** What a poll brings: consecutive entries up to the end of the log. */
  lemma PollBrings(c: Client, capacity: nat)
    requires InOrder(c.log) && c.last < |c.log| && capacity > 0
    ensures var more := Above(c.log, capacity, c.last);
            && |more| == |c.log| - c.last - Overrun(c, capacity) > 0
            && (forall i :: 0 <= i < |more| ==>
               more[i] == c.log[|c.log| - |more| + i] && more[i].number == |c.log| - |more| + i + 1)
  {
  }

  lemma FaithfulAppend(log: seq<Entry>, last: nat, got: seq<Entry>, missed: nat, more: seq<Entry>)
    requires Faithful(Client(log, last, got, missed)) && last + |more| <= |log|
    requires forall i :: 0 <= i < |more| ==>
             more[i] == log[|log| - |more| + i] && more[i].number == |log| - |more| + i + 1
    ensures Faithful(Client(log, |log|, got + more, missed))
  {
    var all := got + more;
    forall i, j | 0 <= i < j < |all| ensures all[i].number < all[j].number {
      if i < |got| {
        assert got[i].number <= last;
      }
    }
  }

  lemma PollKeeps(c: Client, capacity: nat)
    requires Inv(c) && capacity > 0
    ensures Inv(Step(c, capacity, Poll)) && Step(c, capacity, Poll).last == |c.log|
  {
    if c.last < |c.log| {
      PollBrings(c, capacity);
      FaithfulAppend(c.log, c.last, c.got, c.missed + Overrun(c, capacity), Above(c.log, capacity, c.last));
    }
  }

  lemma AppendKeeps(c: Client, capacity: nat, text: string)
    requires Inv(c)
    ensures Inv(Step(c, capacity, Append(text)))
  {
  }

  /** Over any mix of appends and polls the client gets strictly increasing numbers with the entries that
      belong to them, and it misses exactly the entries by which the log overran the ring between polls. */
  lemma {:induction false} PollerIsFaithful(c: Client, capacity: nat, events: seq<Event>)
    requires Inv(c) && capacity > 0
    ensures Inv(Events(c, capacity, events))
    decreases |events|
  {
    if events != [] {
      match events[0] {
        case Append(text) => AppendKeeps(c, capacity, text);
        case Poll => PollKeeps(c, capacity);
      }
      PollerIsFaithful(Step(c, capacity, events[0]), capacity, events[1..]);
    }
  }

  /** The log never runs more than `capacity` entries ahead of the last poll. */
  predicate KeepsUp(c: Client, capacity: nat, events: seq<Event>)
    decreases |events|
  {
    |c.log| - c.last <= capacity && (events == [] || KeepsUp(Step(c, capacity, events[0]), capacity, events[1..]))
  }

  /** A client that polls often enough gets every entry up to its last poll. */
  lemma {:induction false} PromptPollerMissesNothing(c: Client, capacity: nat, events: seq<Event>)
    requires Inv(c) && capacity > 0 && c.missed == 0 && c.got == c.log[..c.last] && KeepsUp(c, capacity, events)
    ensures var end := Events(c, capacity, events);
            Inv(end) && end.missed == 0 && end.got == end.log[..end.last]
    decreases |events|
  {
    if events != [] {
      match events[0] {
        case Append(text) => AppendKeeps(c, capacity, text);
        case Poll => PollKeeps(c, capacity);
      }
      var c' := Step(c, capacity, events[0]);
      assert c'.got == c'.log[..c'.last];
      PromptPollerMissesNothing(c', capacity, events[1..]);
    }
  }

  /** From the first entry on: what a client got is in order and authentic, and together with what it
      missed accounts for every entry up to its last poll; if it kept up it got them all. */
  lemma PollingFromTheStart(capacity: nat, events: seq<Event>)
    requires capacity > 0
    ensures var end := Events(START, capacity, events);
            && Faithful(end) && |end.got| + end.missed == end.last <= |end.log|
            && (KeepsUp(START, capacity, events) ==> end.got == end.log[..end.last])
  {
    PollerIsFaithful(START, capacity, events);
    if KeepsUp(START, capacity, events) {
      PromptPollerMissesNothing(START, capacity, events);
    }
  }
}
