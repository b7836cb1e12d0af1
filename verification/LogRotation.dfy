/** The JSONL event log: one current file, and rotated files numbered from 1 (the newest) up. */
module LogRotation {
  import opened Prelude

  /** The lines of a file, each with its newline. */
  type File = seq<string>

  function Bytes(f: File): nat {
    if f == [] then 0 else Bytes(f[..|f| - 1]) + |f[|f| - 1]|
  }

  /** The rotated files newest first, the current file and the bytes counted for it. */
  datatype Log = Log(archive: seq<File>, current: File, written: nat)

  const EMPTY := Log([], [], 0)

  /** How many rotated files are kept: a non-positive setting stands for 7. */
  function Kept(keep: int): (k: nat)
    ensures k >= 1 && (keep >= 1 ==> k == keep) && (keep <= 0 ==> k == 7)
  {
    if keep <= 0 then 7 else keep
  }

  /** The rotated files that stay when another one comes in, and those that go. */
  function Staying(archive: seq<File>, keep: int): seq<File> {
    if |archive| >= Kept(keep) then archive[..Kept(keep) - 1] else archive
  }

  function Going(archive: seq<File>, keep: int): seq<File> {
    if |archive| >= Kept(keep) then archive[Kept(keep) - 1..] else []
  }

  function Rotated(log: Log, keep: int): Log {
    Log([log.current] + Staying(log.archive, keep), [], 0)
  }

  function Grown(log: Log, line: string): Log {
    Log(log.archive, log.current + [line], log.written + |line|)
  }

  /** The line fills the file up. A limit of zero (or less) never rotates. */
  predicate Fills(log: Log, line: string, limit: int) {
    limit > 0 && log.written + |line| >= limit
  }

  function Write(log: Log, line: string, limit: int, keep: int): Log {
    if Fills(log, line, limit) then Rotated(Grown(log, line), keep) else Grown(log, line)
  }

  // ----- the sink -----

  class JSONLSink {
    const rotateBytes: int
    const keep: int
    /** The directory: the rotated files by number, and the file now written to. */
    var rotated: map<nat, File>
    var current: File
    var written: nat
    ghost var archive: seq<File>

    /** The rotated files are numbered 1 to k without gaps. */
    ghost predicate Valid()
      reads this
    {
      Numbered(rotated, archive)
    }

    ghost function State(): Log
      reads this
    {
      Log(archive, current, written)
    }

    /** Opening the sink over the files an earlier one left. */
    constructor (rotateBytes: int, keep: int, rotated: map<nat, File>, current: File, ghost archive: seq<File>)
      requires Numbered(rotated, archive)
      ensures Valid() && State() == Log(archive, current, Bytes(current))
      ensures this.rotateBytes == rotateBytes && this.keep == keep
    {
      this.rotateBytes, this.keep := rotateBytes, keep;
      this.rotated, this.current, this.archive := rotated, current, archive;
      written := Bytes(current);
    }

    method Handle(line: string)
      requires Valid()
      modifies this
      ensures Valid() && State() == Write(old(State()), line, rotateBytes, keep)
    {
      current := current + [line];
      written := written + |line|;
      if rotateBytes > 0 && written >= rotateBytes {
        Rotate();
      }
    }

    method Rotate()
      requires Valid()
      modifies this
      ensures Valid() && State() == Rotated(old(State()), keep)
    {
      var limit := keep;
      if limit <= 0 {
        limit := 7;
      }
      var existing := ListRotated(rotated);
      CountsUp(existing, |archive|);
      RemoveOld(existing, limit);
      ShiftUp(existing, limit);
      rotated := rotated[1 := current];
      archive := [current] + archive;
      current := [];
      written := 0;
    }

    /** Deletes all but the newest limit - 1 rotated files. */
    method RemoveOld(existing: seq<nat>, limit: nat)
      requires Valid() && limit >= 1 && UpTo(existing, |archive|)
      modifies this`rotated, this`archive
      ensures Valid() && archive == if |existing| >= limit then old(archive)[..limit - 1] else old(archive)
    {
      for i := 0 to |existing|
        invariant archive == old(archive)
        invariant forall n :: n in rotated <==> 1 <= n <= |archive| && !(limit <= n <= i)
        invariant forall n :: n in rotated ==> rotated[n] == archive[n - 1]
      {
        if i >= limit - 1 {
          rotated := rotated - {existing[i]};
        }
      }
      if |existing| >= limit {
        archive := archive[..limit - 1];
      }
    }

    /** Renames Path.n to Path.(n + 1), the oldest first; no rename lands on a file that still exists.
        Path.1 is left free. */
    method ShiftUp(existing: seq<nat>, limit: nat)
      requires Valid() && limit >= 1 && UpTo(existing, |existing|)
      requires |archive| == if |existing| >= limit then limit - 1 else |existing|
      modifies this`rotated
      ensures forall n :: n in rotated <==> 2 <= n <= |archive| + 1
      ensures forall n :: n in rotated ==> rotated[n] == archive[n - 2]
    {
      var i := |existing|;
      while i > 0
        invariant 0 <= i <= |existing|
        invariant forall n :: n in rotated <==>
                  1 <= n <= |archive| + 1 && (i >= |archive| ==> n != |archive| + 1) && (i < |archive| ==> n != i + 1)
        invariant forall n :: n in rotated ==> rotated[n] == if n <= i then archive[n - 1] else archive[n - 2]
      {
        i := i - 1;
        if i < limit - 1 {
          var src, dst := existing[i], i + 2;
          assert dst !in rotated;
          rotated := (rotated - {src})[dst := rotated[src]];
        }
      }
    }
  }

  ghost predicate Numbered(rotated: map<nat, File>, archive: seq<File>) {
    && (forall n :: n in rotated <==> 1 <= n <= |archive|)
    && (forall n :: n in rotated ==> rotated[n] == archive[n - 1])
  }

  /** The numbers 1 to k in order. */
  ghost predicate UpTo(s: seq<nat>, k: nat) {
    |s| == k && forall i :: 0 <= i < k ==> s[i] == i + 1
  }

  /** The smallest number of a set, by looking at all of them. */
  method Smallest(s: set<nat>) returns (min: nat)
    requires s != {}
    ensures min in s && forall n :: n in s ==> min <= n
  {
    min :| min in s;
    var rest := s - {min};
    while rest != {}
      invariant min in s && forall n :: n in s && n !in rest ==> min <= n
    {
      var n :| n in rest;
      rest := rest - {n};
      if n < min {
        min := n;
      }
    }
  }

  ghost predicate Increasing(s: seq<nat>) {
    forall i, j :: 0 <= i < j < |s| ==> s[i] < s[j]
  }

  /** The rotated files in numerical order, whatever numbers they have. */
  method ListRotated(rotated: map<nat, File>) returns (out: seq<nat>)
    ensures Increasing(out) && forall n :: n in out <==> n in rotated
  {
    out := [];
    var todo := rotated.Keys;
    while todo != {}
      invariant Increasing(out) && forall n :: n in rotated <==> n in out || n in todo
      invariant forall i, m :: 0 <= i < |out| && m in todo ==> out[i] < m
    {
      var n := Smallest(todo);
      out := out + [n];
      todo := todo - {n};
    }
  }

  /** The numbers 1 to k in increasing order are 1 to k. */
  lemma {:induction false} CountsUp(s: seq<nat>, k: nat)
    requires Increasing(s) && forall n :: n in s <==> 1 <= n <= k
    ensures UpTo(s, k)
    decreases k
  {
    SomeElement(s);
    if k > 0 {
      assert k in s;
      var j := IndexIn(s, k);
      var last := |s| - 1;
      assert s[last] in s;
      assert j == last;
      var front := s[..last];
      forall n ensures n in front <==> 1 <= n <= k - 1 {
        if n in s {
          var i := IndexIn(s, n);
          assert i < last ==> front[i] == n;
        }
      }
      CountsUp(front, k - 1);
    }
  }

  lemma IndexIn(s: seq<nat>, n: nat) returns (i: nat)
    requires n in s
    ensures i < |s| && s[i] == n
  {
    i :| i < |s| && s[i] == n;
  }

  // ----- conservation -----

  function WriteAll(log: Log, lines: seq<string>, limit: int, keep: int): Log
    decreases |lines|
  {
    if lines == [] then log else WriteAll(Write(log, lines[0], limit, keep), lines[1..], limit, keep)
  }

  /** All lines on disk: Path.k down to Path.1, then Path. */
  function OldestFirst(archive: seq<File>): seq<string> {
    if archive == [] then [] else OldestFirst(archive[1..]) + archive[0]
  }

  function OnDisk(log: Log): seq<string> {
    OldestFirst(log.archive) + log.current
  }

  /** The lines deleted by one write. */
  function Deleted(log: Log, line: string, limit: int, keep: int): seq<string> {
    if Fills(log, line, limit) then OldestFirst(Going(log.archive, keep)) else []
  }

  function AllDeleted(log: Log, lines: seq<string>, limit: int, keep: int): seq<string>
    decreases |lines|
  {
    if lines == [] then []
    else Deleted(log, lines[0], limit, keep) + AllDeleted(Write(log, lines[0], limit, keep), lines[1..], limit, keep)
  }

  function Rotations(log: Log, lines: seq<string>, limit: int, keep: int): nat
    decreases |lines|
  {
    if lines == [] then 0
    else
      var here := if Fills(log, lines[0], limit) then 1 else 0;
      here + Rotations(Write(log, lines[0], limit, keep), lines[1..], limit, keep)
  }

  lemma {:induction false} OldestConcat(a: seq<File>, b: seq<File>)
    ensures OldestFirst(a + b) == OldestFirst(b) + OldestFirst(a)
    decreases |a|
  {
    if a == [] {
      assert a + b == b;
    } else {
      FirstOfConcat(a, b);
      OldestConcat(a[1..], b);
      Assoc(OldestFirst(b), OldestFirst(a[1..]), a[0]);
    }
  }

  lemma StayOrGo(archive: seq<File>, keep: int)
    ensures OldestFirst(archive) == OldestFirst(Going(archive, keep)) + OldestFirst(Staying(archive, keep))
  {
    assert archive == Staying(archive, keep) + Going(archive, keep);
    OldestConcat(Staying(archive, keep), Going(archive, keep));
  }

  lemma WriteConserves(log: Log, line: string, limit: int, keep: int)
    ensures OnDisk(log) + [line] == Deleted(log, line, limit, keep) + OnDisk(Write(log, line, limit, keep))
  {
    var grown := log.current + [line];
    Assoc(OldestFirst(log.archive), log.current, [line]);
    if Fills(log, line, limit) {
      StayOrGo(log.archive, keep);
      var go, stay := OldestFirst(Going(log.archive, keep)), OldestFirst(Staying(log.archive, keep));
      Assoc(go, stay, grown);
      assert ([grown] + Staying(log.archive, keep))[1..] == Staying(log.archive, keep);
      assert (stay + grown) + [] == stay + grown;
    } else {
      assert [] + OnDisk(Grown(log, line)) == OnDisk(Grown(log, line));
    }
  }

  /** What was on disk and what is written equals what was deleted and what is on disk now, in order. */
  lemma {:induction false} Conservation(log: Log, lines: seq<string>, limit: int, keep: int)
    ensures OnDisk(log) + lines == AllDeleted(log, lines, limit, keep) + OnDisk(WriteAll(log, lines, limit, keep))
    decreases |lines|
  {
    if lines == [] {
      assert OnDisk(log) + [] == [] + OnDisk(log);
    } else {
      var log' := Write(log, lines[0], limit, keep);
      var now, later := Deleted(log, lines[0], limit, keep), AllDeleted(log', lines[1..], limit, keep);
      WriteConserves(log, lines[0], limit, keep);
      Conservation(log', lines[1..], limit, keep);
      assert OnDisk(log) + lines == (OnDisk(log) + [lines[0]]) + lines[1..];
      Assoc(now, OnDisk(log'), lines[1..]);
      Assoc(now, later, OnDisk(WriteAll(log', lines[1..], limit, keep)));
    }
  }

  /** The bytes counted are those of the current file, which is not yet full; every rotated file was
      filled up; at most the kept number of files exist. */
  ghost predicate Sound(log: Log, limit: int, keep: int) {
    && |log.archive| <= Kept(keep)
    && log.written == Bytes(log.current) && (limit > 0 ==> log.written < limit)
    && (forall f :: f in log.archive ==> f != [] && Bytes(f) >= limit)
  }

  lemma WriteSound(log: Log, line: string, limit: int, keep: int)
    requires Sound(log, limit, keep)
    ensures Sound(Write(log, line, limit, keep), limit, keep)
    ensures |Write(log, line, limit, keep).archive|
            == if Fills(log, line, limit) && |log.archive| < Kept(keep) then |log.archive| + 1 else |log.archive|
    ensures Deleted(log, line, limit, keep) != [] <==> Fills(log, line, limit) && |log.archive| == Kept(keep)
  {
    var grown := log.current + [line];
    assert grown[..|grown| - 1] == log.current;
    if Fills(log, line, limit) && |log.archive| == Kept(keep) {
      var going := Going(log.archive, keep);
      assert going == [log.archive[|log.archive| - 1]] && going[1..] == [];
    }
  }

  /** In every run the directory stays sound; there are as many rotated files as rotations, up to the
      limit; and lines are lost exactly when there were more rotations than that. */
  lemma {:induction false} RotationBounds(log: Log, lines: seq<string>, limit: int, keep: int)
    requires Sound(log, limit, keep)
    ensures var end, k := WriteAll(log, lines, limit, keep), |log.archive| + Rotations(log, lines, limit, keep);
            && Sound(end, limit, keep)
            && |end.archive| == (if k < Kept(keep) then k else Kept(keep))
            && (AllDeleted(log, lines, limit, keep) == [] <==> k <= Kept(keep))
    decreases |lines|
  {
    if lines != [] {
      WriteSound(log, lines[0], limit, keep);
      RotationBounds(Write(log, lines[0], limit, keep), lines[1..], limit, keep);
    }
  }

  /** From an empty directory: the files on disk, oldest first, hold a suffix of everything written, and
      everything until the first deletion; once something was deleted, a full set of filled-up files is
      left. */
  lemma LogIsSuffix(lines: seq<string>, limit: int, keep: int)
    ensures var end := WriteAll(EMPTY, lines, limit, keep);
            && lines == AllDeleted(EMPTY, lines, limit, keep) + OnDisk(end)
            && |end.archive| <= Kept(keep)
            && (OnDisk(end) == lines <==> Rotations(EMPTY, lines, limit, keep) <= Kept(keep))
            && (OnDisk(end) != lines ==>
                  |end.archive| == Kept(keep) && forall f :: f in end.archive ==> Bytes(f) >= limit)
  {
    Conservation(EMPTY, lines, limit, keep);
    assert [] + lines == lines && OnDisk(EMPTY) == [];
    RotationBounds(EMPTY, lines, limit, keep);
    assert Bytes([]) == 0;
  }
}
