/** The mask that operators write most: "*!*@host" is about the users of one host, whatever their nick and user
    name. */
module HostBans {
  import opened Prelude
  import opened CaseMap
  import opened State
  import opened Clients
  import opened Glob

  // ----- the parts of a pattern -----

  predicate Literal(p: string) {
    '*' !in p && '?' !in p
  }

  lemma {:induction false} StarThen(p: string, s: string)
    ensures Globs("*" + p, s) <==> exists k :: 0 <= k <= |s| && Globs(p, s[k..])
    decreases |s|
  {
    assert ("*" + p)[1..] == p && s[0..] == s;
    if s != "" {
      StarThen(p, s[1..]);
      forall k | 0 <= k <= |s[1..]| ensures s[1..][k..] == s[k + 1..] {
      }
      if k :| 0 < k <= |s| && Globs(p, s[k..]) {
        assert s[1..][k - 1..] == s[k..];
      }
    }
  }

  lemma {:induction false} LiteralThen(a: string, p: string, s: string)
    requires Literal(a)
    ensures Globs(a + p, s) <==> a <= s && Globs(p, s[|a|..])
    decreases |a|
  {
    if a == "" {
      assert a + p == p && s[0..] == s;
    } else {
      assert (a + p)[0] == a[0] && (a + p)[1..] == a[1..] + p && a[0] in a;
      assert forall c :: c in a[1..] ==> c in a;
      if s != "" {
        LiteralThen(a[1..], p, s[1..]);
        assert a[1..] <= s[1..] && a[0] == s[0] <==> a <= s by {
          assert a == [a[0]] + a[1..] && s == [s[0]] + s[1..];
        }
        assert a <= s ==> s[1..][|a[1..]|..] == s[|a|..];
      }
    }
  }

  lemma LiteralGlobs(p: string, s: string)
    requires Literal(p)
    ensures Globs(p, s) <==> p == s
  {
    LiteralThen(p, "", s);
    assert p + "" == p;
    if p <= s && s[|p|..] == "" {
      assert p == s;
    }
  }

  // ----- masks of a host -----

  function HostMask(host: string): string {
    "*" + ("!" + ("*" + ("@" + host)))
  }

  /** An at sign with just the host behind it. */
  predicate HostAt(s: string, j: nat, host: string) {
    j < |s| && s[j] == '@' && s[j + 1..] == host
  }

  lemma TailAt(host: string, s: string, j: nat)
    requires Literal(host) && j <= |s|
    ensures Globs("@" + host, s[j..]) <==> HostAt(s, j, host)
  {
    var tail := "@" + host;
    LiteralGlobs(tail, s[j..]);
    if j < |s| {
      assert s[j..] == [s[j]] + s[j + 1..];
      assert tail[0] == '@' && tail[1..] == host;
    }
  }

  lemma TailGlobs(host: string, s: string, from: nat)
    requires Literal(host) && from <= |s|
    ensures Globs("*" + ("@" + host), s[from..]) <==> exists j: nat :: from <= j && HostAt(s, j, host)
  {
    var tail, rest := "@" + host, s[from..];
    StarThen(tail, rest);
    if k :| 0 <= k <= |rest| && Globs(tail, rest[k..]) {
      assert rest[k..] == s[from + k..];
      TailAt(host, s, from + k);
    }
    if j: nat :| from <= j && HostAt(s, j, host) {
      assert rest[j - from..] == s[j..];
      TailAt(host, s, j);
    }
  }

  /** An exclamation mark, and further on an at sign with just the host behind it. */
  predicate MarksAt(s: string, i: nat, j: nat, host: string) {
    i < j && i < |s| && s[i] == '!' && HostAt(s, j, host)
  }

  lemma HostMaskGlobs(host: string, s: string)
    requires Literal(host)
    ensures Globs(HostMask(host), s) <==> exists i: nat, j: nat :: MarksAt(s, i, j, host)
  {
    var tail := "@" + host;
    StarThen("!" + ("*" + tail), s);
    forall k: nat | k <= |s|
      ensures Globs("!" + ("*" + tail), s[k..]) <==> k < |s| && s[k] == '!' && Globs("*" + tail, s[k + 1..])
    {
      LiteralThen("!", "*" + tail, s[k..]);
      assert k < |s| ==> s[k..][1..] == s[k + 1..] && s[k..][0] == s[k];
    }
    if k: nat :| k <= |s| && Globs("!" + ("*" + tail), s[k..]) {
      TailGlobs(host, s, k + 1);
      var j: nat :| k + 1 <= j && HostAt(s, j, host);
      assert MarksAt(s, k, j, host);
    }
    if i: nat, j: nat :| MarksAt(s, i, j, host) {
      TailGlobs(host, s, i + 1);
    }
  }

  /** A user with a user name and a host, and no at sign or star in either or in the nick. */
  predicate Plain(u: UserState) {
    && u.user != "" && u.host != ""
    && '@' !in u.nick && '@' !in u.user && '@' !in u.host && '*' !in u.nick && '*' !in u.user && '*' !in u.host
  }

  lemma FoldOf(m: CaseMapping, a: string, b: string)
    ensures Fold(m, a + b) == Fold(m, a) + Fold(m, b)
  {
  }

  lemma FoldKeeps(m: CaseMapping, s: string, c: char)
    requires c in {'@', '!', '*', '?'}
    ensures c in Fold(m, s) <==> c in s
    ensures Fold(m, [c]) == [c]
  {
    forall i | 0 <= i < |s| ensures Fold(m, s)[i] == c <==> s[i] == c {
    }
  }

  /** Where the at sign of a hostmask is. */
  lemma OneAtSign(front: string, host: string, s: string, j: nat)
    requires s == front + "@" + host && '@' !in front && '@' !in host && j < |s| && s[j] == '@'
    ensures s[j + 1..] == host
  {
    NoneElsewhere(front, host, s);
  }

  lemma NoneElsewhere(front: string, host: string, s: string)
    requires s == front + "@" + host && '@' !in front && '@' !in host
    ensures forall k :: 0 <= k < |s| && k != |front| ==> s[k] != '@'
    ensures s[|front| + 1..] == host
  {
    forall k | 0 <= k < |s| && k != |front| ensures s[k] != '@' {
      assert s[k] == if k < |front| then front[k] else host[k - |front| - 1];
    }
  }

  lemma HostmaskParts(u: UserState)
    requires Plain(u)
    ensures u.Hostmask() == u.nick + ("!" + (u.user + ("@" + u.host))) && '*' !in u.Hostmask()
  {
  }

  lemma FoldParts(m: CaseMapping, a: string, b: string, c: string)
    ensures Fold(m, a + ("!" + (b + ("@" + c)))) == Fold(m, a) + "!" + Fold(m, b) + "@" + Fold(m, c)
  {
    hide Fold;
    FoldKeeps(m, "", '!');
    FoldKeeps(m, "", '@');
    FoldOf(m, a, "!" + (b + ("@" + c)));
    FoldOf(m, "!", b + ("@" + c));
    FoldOf(m, b, "@" + c);
    FoldOf(m, "@", c);
  }

  lemma FoldedHostmask(m: CaseMapping, u: UserState)
    requires Plain(u)
    ensures var front := Fold(m, u.nick) + "!" + Fold(m, u.user);
            && Fold(m, u.Hostmask()) == front + "@" + Fold(m, u.host)
            && '@' !in front && '@' !in Fold(m, u.host) && '*' !in u.Hostmask()
  {
    hide Fold, UserState.Hostmask;
    HostmaskParts(u);
    FoldParts(m, u.nick, u.user, u.host);
    FoldKeeps(m, u.nick, '@');
    FoldKeeps(m, u.user, '@');
    FoldKeeps(m, u.host, '@');
  }

  lemma FoldedMask(m: CaseMapping, host: string)
    requires Literal(host)
    ensures Fold(m, HostMask(host)) == HostMask(Fold(m, host)) && Literal(Fold(m, host))
  {
    FoldKeeps(m, host, '*');
    FoldKeeps(m, host, '?');
    FoldKeeps(m, host, '!');
    FoldKeeps(m, host, '@');
    FoldOf(m, "*", "!" + ("*" + ("@" + host)));
    FoldOf(m, "!", "*" + ("@" + host));
    FoldOf(m, "*", "@" + host);
    FoldOf(m, "@", host);
  }

  /** "*!*@host" is about the users whose host is that one up to case, and about nobody else. */
  lemma HostMaskMeans(m: CaseMapping, host: string, at: int, u: UserState)
    requires Literal(host) && Plain(u)
    ensures MatchesAny(m, map[HostMask(host) := at], u.Hostmask()) <==> SameName(m, host, u.host)
  {
    var masks := map[HostMask(host) := at];
    var s, h := Fold(m, u.Hostmask()), Fold(m, host);
    var front := Fold(m, u.nick) + "!" + Fold(m, u.user);
    FoldedHostmask(m, u);
    FoldedMask(m, host);
    MatchIsCover(m, masks, u.Hostmask());
    HostMaskGlobs(h, s);
    FoldIsSameName(m, host, u.host);
    assert HostMask(host) in masks;
    if h == Fold(m, u.host) {
      assert s[|u.nick|] == '!' && s[|front| + 1..] == h;
      assert MarksAt(s, |u.nick|, |front|, h);
    }
    if i: nat, j: nat :| MarksAt(s, i, j, h) {
      OneAtSign(front, Fold(m, u.host), s, j);
    }
  }
}
