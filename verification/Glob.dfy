/** The glob matcher behind every ban, exception, invite-exception and quiet list.

    `Globs` is the meaning of a pattern; `Run` is the one-star-backtrack loop of the daemon, written
    as a function of its four cursors so that lemmas can speak about it. */
module Glob {
  import opened Prelude

  /** What a pattern means: '*' stands for any run of characters, '?' for exactly one. */
  ghost predicate Globs(p: string, s: string)
    decreases |p| + |s|
  {
    if p == "" then s == ""
    else if p[0] == '*' then Globs(p[1..], s) || (s != "" && Globs(p, s[1..]))
    else s != "" && (p[0] == '?' || p[0] == s[0]) && Globs(p[1..], s[1..])
  }

  /** The position of the first character of `p` at or after `pi` that is not '*'. */
  function SkipStars(p: string, pi: nat): (r: nat)
    requires pi <= |p|
    ensures pi <= r <= |p|
    decreases |p| - pi
  {
    if pi < |p| && p[pi] == '*' then SkipStars(p, pi + 1) else pi
  }

  /** One branch of the loop: consume a character of the subject. */
  predicate Consumes(p: string, s: string, pi: nat, si: nat) {
    pi < |p| && si < |s| && (p[pi] == s[si] || p[pi] == '?')
  }

  /** The matcher from a given cursor position. `star` is the last recorded '*' and the subject
      position it currently stands at, when there is one. */
  function Run(p: string, s: string, pi: nat, si: nat, star: Option<(nat, nat)>): bool
    requires pi <= |p| && si <= |s|
    requires star.Some? ==> star.value.0 < pi && star.value.1 <= si
    decreases |p| - (if star.Some? then star.value.0 + 1 else 0), |s| - (if star.Some? then star.value.1 else 0),
              |s| - si, |p| - pi
  {
    if si == |s| then SkipStars(p, pi) == |p|
    else if Consumes(p, s, pi, si) then Run(p, s, pi + 1, si + 1, star)
    else if pi < |p| && p[pi] == '*' then Run(p, s, pi + 1, si, Some((pi, si)))
    else if star.Some? then
      Run(p, s, star.value.0 + 1, star.value.1 + 1, Some((star.value.0, star.value.1 + 1)))
    else false
  }

  function Matches(p: string, s: string): bool {
    Run(p, s, 0, 0, None)
  }

  /** globMatch itself: -1 in both star cursors means that no star was seen. */
  method GlobMatch(pattern: string, s: string) returns (r: bool)
    ensures r == Matches(pattern, s)
    ensures r ==> Globs(pattern, s)
    ensures '*' !in s ==> (r <==> Globs(pattern, s))
  {
    var pi, si := 0, 0;
    var starP, starS := -1, -1;
    while si < |s|
      invariant 0 <= pi <= |pattern| && 0 <= si <= |s|
      invariant (starP == -1 && starS == -1) || (0 <= starP < pi && 0 <= starS <= si)
      invariant Run(pattern, s, pi, si, StarOf(starP, starS)) == Matches(pattern, s)
      decreases |pattern| - starP, |s| - starS, |s| - si, |pattern| - pi
    {
      if pi < |pattern| && (pattern[pi] == s[si] || pattern[pi] == '?') {
        pi := pi + 1;
        si := si + 1;
      } else if pi < |pattern| && pattern[pi] == '*' {
        starP := pi;
        starS := si;
        pi := pi + 1;
      } else if starP >= 0 {
        pi := starP + 1;
        starS := starS + 1;
        si := starS;
      } else {
        Correctness(pattern, s);
        return false;
      }
    }
    while pi < |pattern| && pattern[pi] == '*'
      invariant 0 <= pi <= |pattern|
      invariant (SkipStars(pattern, pi) == |pattern|) == Matches(pattern, s)
    {
      pi := pi + 1;
    }
    Correctness(pattern, s);
    r := pi == |pattern|;
  }

  ghost function StarOf(starP: int, starS: int): Option<(nat, nat)> {
    if starP >= 0 && starS >= 0 then Some((starP, starS)) else None
  }

  // ----- soundness: a reported match is a match -----

  lemma {:induction false} StarAbsorbs(p: string, s: string, k: nat)
    requires p != "" && p[0] == '*' && k <= |s| && Globs(p, s[k..])
    ensures Globs(p, s)
    decreases k
  {
    if k > 0 {
      assert s[k - 1..][1..] == s[k..];
      StarAbsorbs(p, s, k - 1);
    } else {
      assert s[0..] == s;
    }
  }

  lemma {:induction false} SkipStarsMeans(p: string, pi: nat)
    requires pi <= |p|
    ensures Globs(p[pi..], "") <==> SkipStars(p, pi) == |p|
    decreases |p| - pi
  {
    if pi < |p| && p[pi] == '*' {
      assert p[pi..][1..] == p[pi + 1..];
      SkipStarsMeans(p, pi + 1);
    }
  }

  /** A '*' of the pattern that was consumed literally still matches what it stood for. */
  lemma ConsumeSound(p: string, s: string, pi: nat, si: nat)
    requires Consumes(p, s, pi, si) && Globs(p[pi + 1..], s[si + 1..])
    ensures Globs(p[pi..], s[si..])
  {
    assert p[pi..][1..] == p[pi + 1..] && s[si..][1..] == s[si + 1..];
    if p[pi] == '*' {
      assert Globs(p[pi..], s[si + 1..]);
    }
  }

  lemma {:induction false} RunSound(p: string, s: string, pi: nat, si: nat, star: Option<(nat, nat)>)
    requires pi <= |p| && si <= |s|
    requires star.Some? ==> star.value.0 < pi && star.value.1 <= si && p[star.value.0] == '*'
    requires Run(p, s, pi, si, star)
    ensures Globs(p[pi..], s[si..]) || (star.Some? && Globs(p[star.value.0..], s[star.value.1..]))
    decreases |p| - (if star.Some? then star.value.0 + 1 else 0), |s| - (if star.Some? then star.value.1 else 0),
              |s| - si, |p| - pi
  {
    if si == |s| {
      SkipStarsMeans(p, pi);
    } else if Consumes(p, s, pi, si) {
      RunSound(p, s, pi + 1, si + 1, star);
      if Globs(p[pi + 1..], s[si + 1..]) {
        ConsumeSound(p, s, pi, si);
      }
    } else if pi < |p| && p[pi] == '*' {
      RunSound(p, s, pi + 1, si, Some((pi, si)));
      assert p[pi..][1..] == p[pi + 1..];
    } else if star.Some? {
      var (sp, ss) := star.value;
      RunSound(p, s, sp + 1, ss + 1, Some((sp, ss + 1)));
      assert p[sp..][1..] == p[sp + 1..] && s[ss..][1..] == s[ss + 1..];
      assert Globs(p[sp..], s[ss + 1..]);
    }
  }

  lemma Sound(p: string, s: string)
    requires Matches(p, s)
    ensures Globs(p, s)
  {
    RunSound(p, s, 0, 0, None);
    assert p[0..] == p && s[0..] == s;
  }

  // ----- completeness for subjects without '*' -----

  /** Since the last star was placed, every pattern character after it matched one subject character. */
  ghost predicate Aligned(p: string, s: string, pi: nat, si: nat, star: Option<(nat, nat)>)
    requires pi <= |p| && si <= |s|
  {
    star.Some? ==>
      && star.value.0 < pi && star.value.1 <= si
      && p[star.value.0] == '*'
      && pi - star.value.0 - 1 == si - star.value.1
      && forall k :: star.value.0 < k < pi ==> p[k] != '*'
  }

  /** A star-free stretch of pattern followed by the rest needs the subject to have that many characters. */
  lemma {:induction false} StretchFits(p: string, s: string, from: nat, to: nat, k: nat)
    requires from <= to <= |p| && k <= |s|
    requires forall i :: from <= i < to ==> p[i] != '*'
    requires Globs(p[from..], s[k..])
    ensures k + (to - from) <= |s| && Globs(p[to..], s[k + (to - from)..])
    decreases |p| - from
  {
    if from < to {
      assert p[from..][1..] == p[from + 1..] && s[k..] != "" && s[k..][1..] == s[k + 1..];
      StretchFits(p, s, from + 1, to, k + 1);
    }
  }

  lemma {:induction false} StarPosition(p: string, s: string, sp: nat, k: nat) returns (j: nat)
    requires sp < |p| && p[sp] == '*' && k <= |s| && Globs(p[sp..], s[k..])
    ensures k <= j <= |s| && Globs(p[sp + 1..], s[j..])
    decreases |s| - k
  {
    assert p[sp..][1..] == p[sp + 1..];
    if Globs(p[sp + 1..], s[k..]) {
      j := k;
    } else {
      assert s[k..][1..] == s[k + 1..];
      j := StarPosition(p, s, sp, k + 1);
    }
  }

  /** Moving the previous star further right cannot help once the stretch after it has matched:
      whatever it would leave for the pattern from `pi` on is a later part of the same subject. */
  lemma LaterStarIsLater(p: string, s: string, pi: nat, si: nat, sp: nat, ss: nat) returns (j: nat)
    requires pi <= |p| && si <= |s| && Aligned(p, s, pi, si, Some((sp, ss)))
    requires ss < |s| && Globs(p[sp..], s[ss + 1..])
    ensures si < j <= |s| && Globs(p[pi..], s[j..])
  {
    var m := StarPosition(p, s, sp, ss + 1);
    StretchFits(p, s, sp + 1, pi, m);
    j := m + (pi - sp - 1);
  }

  /** What a match from here on says about the next character of the pattern. */
  lemma MatchHere(p: string, s: string, pi: nat, si: nat)
    requires pi <= |p| && si < |s| && Globs(p[pi..], s[si..])
    ensures pi < |p| && (p[pi] == '*' || Consumes(p, s, pi, si))
    ensures p[pi] == '*' ==> Globs(p[pi + 1..], s[si..]) || Globs(p[pi..], s[si + 1..])
    ensures p[pi] != '*' ==> Globs(p[pi + 1..], s[si + 1..])
  {
    assert s[si..][1..] == s[si + 1..];
    assert pi < |p| ==> p[pi..][1..] == p[pi + 1..];
  }

  /** The alternatives left open: a match from here on, or one with the last star taking one more. */
  ghost predicate Open(p: string, s: string, pi: nat, si: nat, star: Option<(nat, nat)>)
    requires pi <= |p| && si <= |s| && Aligned(p, s, pi, si, star)
  {
    || Globs(p[pi..], s[si..])
    || (star.Some? && star.value.1 < |s| && Globs(p[star.value.0..], s[star.value.1 + 1..]))
  }

  lemma OpenAtStar(p: string, s: string, pi: nat, si: nat, star: Option<(nat, nat)>)
    requires pi < |p| && si < |s| && Aligned(p, s, pi, si, star) && Open(p, s, pi, si, star) && p[pi] == '*'
    ensures Aligned(p, s, pi + 1, si, Some((pi, si))) && Open(p, s, pi + 1, si, Some((pi, si)))
  {
    if !Globs(p[pi..], s[si..]) {
      var j := LaterStarIsLater(p, s, pi, si, star.value.0, star.value.1);
      assert s[si..][j - si..] == s[j..];
      StarAbsorbs(p[pi..], s[si..], j - si);
    }
    MatchHere(p, s, pi, si);
  }

  lemma OpenAfterStar(p: string, s: string, pi: nat, si: nat, sp: nat, ss: nat)
    requires pi <= |p| && si < |s| && Aligned(p, s, pi, si, Some((sp, ss))) && Open(p, s, pi, si, Some((sp, ss)))
    requires !Consumes(p, s, pi, si) && !(pi < |p| && p[pi] == '*')
    ensures ss < |s| && Aligned(p, s, sp + 1, ss + 1, Some((sp, ss + 1)))
    ensures Open(p, s, sp + 1, ss + 1, Some((sp, ss + 1)))
  {
    if ss + 1 < |s| {
      if Globs(p[sp..], s[ss + 1..]) {
        MatchHere(p, s, sp, ss + 1);
      }
    } else {
      assert s[ss + 1..] == "" && p[sp..][1..] == p[sp + 1..];
    }
    if Globs(p[pi..], s[si..]) {
      MatchHere(p, s, pi, si);
    }
  }

  lemma {:induction false} RunComplete(p: string, s: string, pi: nat, si: nat, star: Option<(nat, nat)>)
    requires '*' !in s
    requires pi <= |p| && si <= |s| && Aligned(p, s, pi, si, star) && Open(p, s, pi, si, star)
    ensures Run(p, s, pi, si, star)
    decreases |p| - (if star.Some? then star.value.0 + 1 else 0),
              |s| - (if star.Some? then star.value.1 else 0), |s| - si, |p| - pi
  {
    hide Globs;
    if si == |s| {
      if !Globs(p[pi..], s[si..]) {
        var j := LaterStarIsLater(p, s, pi, si, star.value.0, star.value.1);
        assert false;
      }
      assert s[si..] == "";
      SkipStarsMeans(p, pi);
    } else if Consumes(p, s, pi, si) {
      if Globs(p[pi..], s[si..]) {
        MatchHere(p, s, pi, si);
      }
      RunComplete(p, s, pi + 1, si + 1, star);
    } else if pi < |p| && p[pi] == '*' {
      OpenAtStar(p, s, pi, si, star);
      RunComplete(p, s, pi + 1, si, Some((pi, si)));
    } else {
      if Globs(p[pi..], s[si..]) {
        MatchHere(p, s, pi, si);
      }
      var (sp, ss) := star.value;
      OpenAfterStar(p, s, pi, si, sp, ss);
      RunComplete(p, s, sp + 1, ss + 1, Some((sp, ss + 1)));
    }
  }

  lemma Complete(p: string, s: string)
    requires '*' !in s && Globs(p, s)
    ensures Matches(p, s)
  {
    assert p[0..] == p && s[0..] == s;
    RunComplete(p, s, 0, 0, None);
  }

  lemma Correctness(p: string, s: string)
    ensures Matches(p, s) ==> Globs(p, s)
    ensures '*' !in s ==> (Matches(p, s) <==> Globs(p, s))
  {
    if Matches(p, s) {
      Sound(p, s);
    }
    if '*' !in s && Globs(p, s) {
      Complete(p, s);
    }
  }

  // ----- exactly which subjects are matched correctly -----

  function Wildcards(n: nat): (r: string)
    ensures |r| == n && forall i :: 0 <= i < n ==> r[i] == '?'
  {
    seq(n, _ => '?')
  }

  lemma {:induction false} WildcardsMatchAll(p: string, s: string)
    requires |p| == |s| && forall i :: 0 <= i < |p| ==> p[i] == '?' || p[i] == s[i]
    requires forall i :: 0 <= i < |p| ==> p[i] != '*'
    ensures Globs(p, s)
  {
    if p != "" {
      WildcardsMatchAll(p[1..], s[1..]);
    }
  }

  /** With a pattern one longer than the subject and no mismatch on the way, the loop never backtracks. */
  lemma {:induction false} RunsOffTheEnd(p: string, s: string, i: nat)
    requires |p| == |s| + 1 && i <= |s| && p[|s|] == '?'
    requires forall k :: i <= k < |s| ==> p[k] == '?' || p[k] == s[k]
    ensures !Run(p, s, i, i, None)
    decreases |s| - i
  {
    if i < |s| {
      RunsOffTheEnd(p, s, i + 1);
    }
  }

  lemma {:induction false} SplitMatch(a: string, b: string, t: string)
    requires forall i :: 0 <= i < |a| ==> a[i] != '*'
    requires Globs(b, t)
    ensures Globs(a + b, a + t)
  {
    if a == "" {
      assert a + b == b && a + t == t;
    } else {
      SplitMatch(a[1..], b, t);
      assert (a + b)[1..] == a[1..] + b && (a + t)[1..] == a[1..] + t;
    }
  }

  /** A pattern for a subject with a '*' at position k: the subject's own first k characters, a '*',
      then a '?' for every remaining character. */
  function MissedPattern(s: string, k: nat): (p: string)
    requires k < |s|
    ensures |p| == |s| + 1 && p == s[..k] + ("*" + Wildcards(|s| - k))
  {
    s[..k] + ("*" + Wildcards(|s| - k))
  }

  lemma {:induction false} StarThenWildcards(t: string)
    ensures Globs("*" + Wildcards(|t|), t)
  {
    var tail := "*" + Wildcards(|t|);
    WildcardsMatchAll(Wildcards(|t|), t);
    assert tail[1..] == Wildcards(|t|);
  }

  lemma {:induction false} NoStars(s: string)
    requires '*' !in s
    ensures forall i :: 0 <= i < |s| ==> s[i] != '*'
  {
    forall i | 0 <= i < |s| ensures s[i] != '*' {
      assert s[i] in s;
    }
  }

  lemma {:induction false} MissedPatternGlobs(s: string, k: nat)
    requires k < |s| && '*' !in s[..k]
    ensures Globs(MissedPattern(s, k), s)
  {
    var front, rest := s[..k], s[k..];
    StarThenWildcards(rest);
    NoStars(front);
    SplitMatch(front, "*" + Wildcards(|rest|), rest);
    assert front + rest == s;
  }

  /** The '*' of the pattern is spent on the '*' of the subject, which leaves one '?' too many. */
  lemma MissedPatternFails(s: string, k: nat)
    requires k < |s| && s[k] == '*'
    ensures !Matches(MissedPattern(s, k), s)
  {
    RunsOffTheEnd(MissedPattern(s, k), s, 0);
  }

  lemma FirstStar(s: string) returns (k: nat)
    requires '*' in s
    ensures k < |s| && s[k] == '*' && '*' !in s[..k]
  {
    k := 0;
    while s[k] != '*'
      invariant k < |s| && '*' !in s[..k] && '*' in s[k..]
      decreases |s| - k
    {
      assert s[k..] == [s[k]] + s[k + 1..];
      assert s[..k + 1] == s[..k] + [s[k]];
      k := k + 1;
    }
  }

  /** The matcher agrees with the meaning of every pattern exactly on the subjects without '*'. */
  lemma ExactSubjects(s: string)
    ensures (forall p :: Matches(p, s) == Globs(p, s)) <==> '*' !in s
  {
    if '*' in s {
      var k := FirstStar(s);
      MissedPatternGlobs(s, k);
      MissedPatternFails(s, k);
    } else {
      forall p ensures Matches(p, s) == Globs(p, s) {
        Correctness(p, s);
      }
    }
  }
}
