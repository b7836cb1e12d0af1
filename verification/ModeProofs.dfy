/** The echo of a local MODE line is canonical, and replaying it on a replica keeps replicas in agreement. */
module ModeProofs {
  import opened Prelude
  import opened State
  import opened ModeSpec

  // ----- the echo is canonical -----

  ghost predicate SameMasks(a: Lists, b: Lists) {
    && a.bans.Keys == b.bans.Keys && a.exceptions.Keys == b.exceptions.Keys
    && a.invexes.Keys == b.invexes.Keys && a.quiets.Keys == b.quiets.Keys
  }

  /** The same up to the times at which masks were set. */
  ghost predicate SameButTimes(a: ChanState, b: ChanState) {
    a.(lists := b.lists) == b && SameMasks(a.lists, b.lists)
  }

  /** A mode character that is not echoed changed nothing and printed no argument. */
  lemma SilentMeansUnchanged(w: WorldState, ch: ChanState, on: bool, kind: ModeKind, args: seq<string>, now: int)
    ensures var e := LocalEffect(w, ch, on, kind, args, now); !e.echoed ==> e.ch == ch && e.param == []
  {
  }

  lemma FoundByOwnNick(w: WorldState, nick: string)
    requires w.Valid() && w.FindByNick(nick).Some?
    ensures w.FindByNick(w.FindByNick(nick).value.nick) == w.FindByNick(nick)
    ensures w.Key(w.FindByNick(nick).value.nick) == w.Key(nick)
  {
    assert w.nicks[w.Key(nick)] in w.users;
  }

  lemma ListRepeats(ch: ChanState, ch': ChanState, on: bool, kind: MaskKind, args: seq<string>, more: seq<string>,
                    now: int, later: int)
    requires SameButTimes(ch, ch') && LocalList(ch, on, kind, args, now).echoed
    ensures var e := LocalList(ch, on, kind, args, now);
            var e' := LocalList(ch', on, kind, e.param + more, later);
            && e'.echoed && !e'.unknown && e'.param == e.param && e'.used == |e.param|
            && SameButTimes(e.ch, e'.ch)
            && (now == later && ch == ch' ==> e.ch == e'.ch)
  {
    assert ([args[0]] + more)[0] == args[0];
  }

  /** Running one echoed change again, on a channel that differs at most in mask times, with exactly
      the echoed argument in front. */
  lemma EchoRepeats(w: WorldState, ch: ChanState, ch': ChanState, on: bool, kind: ModeKind, args: seq<string>,
                    more: seq<string>,
                    now: int, later: int)
    requires w.Valid() && SameButTimes(ch, ch')
    requires LocalEffect(w, ch, on, kind, args, now).echoed
    ensures var e := LocalEffect(w, ch, on, kind, args, now);
            var e' := LocalEffect(w, ch', on, kind, e.param + more, later);
            && e'.echoed && !e'.unknown && e'.param == e.param && e'.used == |e.param|
            && SameButTimes(e.ch, e'.ch)
            && (now == later && ch == ch' ==> e.ch == e'.ch)
  {
    match kind
    case FlagMode(flag) => FoundByOwnNick(w, args[0]);
    case ListMode(masks) => ListRepeats(ch, ch', on, masks, args, more, now, later);
    case _ =>
  }

  /** Splitting off the first change of an echo. */
  lemma EchoHead(e: Effect, dir: char, mc: char, rest: Outcome)
    requires e.echoed
    ensures var o := Prepend(e, dir, mc, rest);
            && |o.changes| >= 2 && o.changes[0] == dir && o.changes[1..][0] == mc && o.changes[1..][1..] == rest.changes
            && o.params == e.param + rest.params && o.params[|e.param|..] == rest.params
  {
  }

  /** Feeding the echo back in from the same channel gives the same channel, the identical echo and no
      unknown characters. Mask times are the new ones unless the clock reads the same. */
  lemma {:induction false} EchoIsCanonicalFrom(w: WorldState, ch: ChanState, ch': ChanState, dir: char, dir': char,
                                               word: string, args: seq<string>,
                                               now: int, later: int)
    requires w.Valid() && SameButTimes(ch, ch') && IsSign(dir)
    ensures var o := LocalRun(w, ch, dir, word, args, now);
            var o' := LocalRun(w, ch', dir', o.changes, o.params, later);
            && o'.changes == o.changes && o'.params == o.params && o'.unknown == ""
            && SameButTimes(o.ch, o'.ch)
            && (now == later && ch == ch' ==> o.ch == o'.ch)
    decreases |word|
  {
    if word == "" {
    } else if IsSign(word[0]) {
      EchoIsCanonicalFrom(w, ch, ch', word[0], dir', word[1..], args, now, later);
    } else {
      var on, kind := dir == '+', KindOf(word[0]);
      var e := LocalEffect(w, ch, on, kind, args, now);
      var rest := LocalRun(w, e.ch, dir, word[1..], args[e.used..], now);
      var o := Prepend(e, dir, word[0], rest);
      if e.echoed {
        EchoRepeats(w, ch, ch', on, kind, args, rest.params, now, later);
        var e' := LocalEffect(w, ch', on, kind, o.params, later);
        EchoIsCanonicalFrom(w, e.ch, e'.ch, dir, dir, word[1..], args[e.used..], now, later);
        EchoHead(e, dir, word[0], rest);
      } else {
        SilentMeansUnchanged(w, ch, on, kind, args, now);
        EchoIsCanonicalFrom(w, ch, ch', dir, dir', word[1..], args[e.used..], now, later);
        assert o.changes == rest.changes && o.params == rest.params;
      }
    }
  }

  lemma EchoIsCanonical(w: WorldState, ch: ChanState, word: string, args: seq<string>, now: int, later: int)
    requires w.Valid()
    ensures var o := LocalRun(w, ch, '+', word, args, now);
            var o' := LocalRun(w, ch, '+', o.changes, o.params, later);
            && o'.changes == o.changes && o'.params == o.params && o'.unknown == ""
            && SameButTimes(o.ch, o'.ch)
            && (now == later ==> o.ch == o'.ch)
  {
    EchoIsCanonicalFrom(w, ch, ch, '+', '+', word, args, now, later);
  }

  // ----- replication -----

  /** What a node knows of the holder of a nick in a channel: operator and voice flags, if a member. */
  function MemberView(w: WorldState, ch: ChanState, nick: string): Option<(bool, bool)> {
    var u := w.FindByNick(nick);
    if u.None? || u.value.id !in ch.members then None
    else Some((ch.members[u.value.id].op, ch.members[u.value.id].voice))
  }

  predicate SameReplicatedModes(a: Modes, b: Modes) {
    && a.inviteOnly == b.inviteOnly && a.moderated == b.moderated && a.noExternal == b.noExternal
    && a.private == b.private && a.secret == b.secret && a.topicLocked == b.topicLocked
  }

  ghost predicate SameSettings(a: ChanState, b: ChanState) {
    && SameReplicatedModes(a.modes, b.modes)
    && a.key == b.key && a.limit == b.limit && a.lists.bans.Keys == b.lists.bans.Keys
  }

  /** IDs are private to each node, so members are compared by nick. */
  ghost predicate SameViews(wa: WorldState, a: ChanState, wb: WorldState, b: ChanState) {
    forall nick: string :: MemberView(wa, a, nick) == MemberView(wb, b, nick)
  }

  /** Two nodes' copies of a channel agree on everything that MODE lines replicate, which is all but the topic. */
  ghost predicate Agree(wa: WorldState, a: ChanState, wb: WorldState, b: ChanState) {
    SameSettings(a, b) && SameViews(wa, a, wb, b)
  }

  lemma MemberViewAfterFlag(w: WorldState, ch: ChanState, nick: string, on: bool, flag: Flag, n: string)
    requires w.Valid() && MemberView(w, ch, nick).Some?
    ensures var id := w.FindByNick(nick).value.id;
            var after := ChangeFlag(ch, on, flag, id);
            MemberView(w, after, n) ==
              if n != "" && w.Key(n) == w.Key(nick) then Some((after.members[id].op, after.members[id].voice))
              else MemberView(w, ch, n)
  {
    FoundByOwnNick(w, nick);
    if w.FindByNick(n).Some? {
      FoundByOwnNick(w, n);
    }
  }

  /** A flag change that goes to the holder of one nick on both nodes. */
  lemma FlagKeepsViews(wa: WorldState, a: ChanState, wb: WorldState, b: ChanState, nick: string, on: bool, flag: Flag)
    requires wa.Valid() && wb.Valid() && wa.mapping == wb.mapping && SameViews(wa, a, wb, b)
    requires MemberView(wa, a, nick).Some?
    ensures wb.FindByNick(nick).Some?
    ensures SameViews(wa, ChangeFlag(a, on, flag, wa.FindByNick(nick).value.id), wb,
            ChangeFlag(b, on, flag, wb.FindByNick(nick).value.id))
  {
    assert MemberView(wa, a, nick) == MemberView(wb, b, nick);
    var a' := ChangeFlag(a, on, flag, wa.FindByNick(nick).value.id);
    var b' := ChangeFlag(b, on, flag, wb.FindByNick(nick).value.id);
    forall n: string ensures MemberView(wa, a', n) == MemberView(wb, b', n) {
      MemberViewAfterFlag(wa, a, nick, on, flag, n);
      MemberViewAfterFlag(wb, b, nick, on, flag, n);
      assert MemberView(wa, a, n) == MemberView(wb, b, n);
    }
  }

  lemma SameMembersKeepViews(wa: WorldState, a: ChanState, wb: WorldState, b: ChanState, a': ChanState, b': ChanState)
    requires SameViews(wa, a, wb, b) && a'.members == a.members && b'.members == b.members
    ensures SameViews(wa, a', wb, b')
  {
    forall nick: string ensures MemberView(wa, a', nick) == MemberView(wb, b', nick) {
      assert MemberView(wa, a, nick) == MemberView(wb, b, nick);
    }
  }

  lemma SetKeepsReplicated(x: Modes, y: Modes, mode: BoolMode, on: bool)
    requires SameReplicatedModes(x, y)
    ensures SameReplicatedModes(x.Set(mode, on), if mode == Anonymous || mode == ServerReop then y else y.Set(mode, on))
  {
  }

  lemma ReplayBool(a: ChanState, b: ChanState, on: bool, mode: BoolMode)
    requires SameSettings(a, b) && mode != ServerReop
    ensures SameSettings(a.(modes := a.modes.Set(mode, on)),
                         if mode == Anonymous then b else b.(modes := b.modes.Set(mode, on)))
  {
    SetKeepsReplicated(a.modes, b.modes, mode, on);
  }

  lemma ReplayBan(a: ChanState, b: ChanState, on: bool, args: seq<string>, more: seq<string>, now: int, later: int)
    requires SameSettings(a, b) && LocalList(a, on, Ban, args, now).echoed
    ensures var e := LocalList(a, on, Ban, args, now);
            && |e.param| == 1 && (e.param + more)[0] == args[0] && args[0] != ""
            && SameSettings(e.ch, ChangeMask(b, on, Ban, args[0], later))
  {
  }

  lemma ReplaySettings(wa: WorldState, a: ChanState, wb: WorldState, b: ChanState, on: bool, kind: ModeKind,
                       args: seq<string>, more: seq<string>,
                       now: int, later: int)
    requires SameSettings(a, b) && IsStandard(a.name) && !IsLocalList(kind) && !kind.FlagMode?
    requires LocalEffect(wa, a, on, kind, args, now).echoed
    ensures var e := LocalEffect(wa, a, on, kind, args, now);
            var r := RemoteEffect(wb, b, on, kind, e.param + more, later);
            && SameSettings(e.ch, r.0) && r.1 == |e.param|
            && e.ch.members == a.members && r.0.members == b.members
  {
    match kind
    case BoolMode(mode) => ReplayBool(a, b, on, mode);
    case ListMode(_) => ReplayBan(a, b, on, args, more, now, later);
    case _ =>
  }

  lemma ReplayFlag(wa: WorldState, a: ChanState, wb: WorldState, b: ChanState, on: bool, flag: Flag, args: seq<string>,
                   more: seq<string>)
    requires wa.Valid() && wb.Valid() && wa.mapping == wb.mapping && Agree(wa, a, wb, b)
    requires LocalFlag(wa, a, on, flag, args).echoed
    ensures var e := LocalFlag(wa, a, on, flag, args);
            && |e.param| == 1 && wb.FindByNick(e.param[0]).Some?
            && Agree(wa, e.ch, wb, ChangeFlag(b, on, flag, wb.FindByNick(e.param[0]).value.id))
  {
    FoundByOwnNick(wa, args[0]);
    FlagKeepsViews(wa, a, wb, b, wa.FindByNick(args[0]).value.nick, on, flag);
  }

  /** One echoed change, replayed by the federation interpreter with the echoed argument in front. */
  lemma ReplayOne(wa: WorldState, a: ChanState, wb: WorldState, b: ChanState, on: bool, kind: ModeKind,
                  args: seq<string>, more: seq<string>,
                  now: int, later: int)
    requires wa.Valid() && wb.Valid() && wa.mapping == wb.mapping && Agree(wa, a, wb, b)
    requires IsStandard(a.name) && !IsLocalList(kind)
    requires LocalEffect(wa, a, on, kind, args, now).echoed
    ensures var e := LocalEffect(wa, a, on, kind, args, now);
            var r := RemoteEffect(wb, b, on, kind, e.param + more, later);
            Agree(wa, e.ch, wb, r.0) && r.1 == |e.param|
  {
    if kind.FlagMode? {
      ReplayFlag(wa, a, wb, b, on, kind.flag, args, more);
    } else {
      ReplaySettings(wa, a, wb, b, on, kind, args, more, now, later);
      var e := LocalEffect(wa, a, on, kind, args, now);
      SameMembersKeepViews(wa, a, wb, b, e.ch, RemoteEffect(wb, b, on, kind, e.param + more, later).0);
    }
  }
}
