/** Which MODE lines keep replicas in agreement. The federation interpreter skips e, I and q without taking
    their arguments, so everything after one of them may be given the wrong argument. */
module ModeReplicas {
  import opened Prelude
  import opened State
  import opened ModeSpec
  import opened ModeProofs
  import opened WireSpec

  // ----- the lines that replicate -----

  /** The direction after a character of a mode word. */
  function Turn(dir: char, mc: char): char {
    if IsSign(mc) then mc else dir
  }

  /** The rest of the word has a -k. */
  predicate Clears(dir: char, word: string)
    decreases |word|
  {
    word != "" && ((dir != '+' && KindOf(word[0]).KeyMode?) || Clears(Turn(dir, word[0]), word[1..]))
  }

  /** The characters that take an argument, if there is one left. */
  predicate TakesArgument(on: bool, kind: ModeKind) {
    kind.FlagMode? || kind.ListMode? || (on && (kind.KeyMode? || kind.LimitMode?))
  }

  /** How many arguments there can still be after a character. */
  function LeftAfter(left: nat, on: bool, kind: ModeKind): nat {
    if left > 0 && TakesArgument(on, kind) then left - 1 else left
  }

  /** The direction of the next l that can do something: a +l needs an argument. */
  function NextLimit(left: nat, dir: char, word: string): Option<bool>
    decreases |word|
  {
    if word == "" then None
    else if KindOf(word[0]).LimitMode? && (dir != '+' || left > 0) then Some(dir == '+')
    else NextLimit(LeftAfter(left, dir == '+', KindOf(word[0])), Turn(dir, word[0]), word[1..])
  }

  /** Whether the rest of a word, with at most `left` arguments to come, can go astray once arguments have
      shifted. A wrong operator, voice or ban stays wrong. A wrong key is put right by a later -k, which is
      echoed unless the key is already empty. A wrong limit is put right by a later -l, but only when no limit
      was set before (`open`) and no other +l comes in between: a limit set to 0 makes the -l silent. */
  predicate Strays(left: nat, open: bool, dir: char, word: string)
    decreases |word|
  {
    if word == "" || left == 0 then false
    else
      match KindOf(word[0])
      case FlagMode(_) => true
      case ListMode(masks) => masks == Ban || Strays(left - 1, open, dir, word[1..])
      case KeyMode =>
        if dir != '+' then Strays(left, open, dir, word[1..])
        else !Clears(dir, word[1..]) || Strays(left - 1, open, dir, word[1..])
      case LimitMode =>
        if dir != '+' then Strays(left, true, dir, word[1..])
        else !open || NextLimit(left - 1, dir, word[1..]) != Some(false) || Strays(left - 1, open, dir, word[1..])
      case _ => Strays(left, open, Turn(dir, word[0]), word[1..])
  }

  /** The same for a word that is read from the start: nothing shifts before the first e, I or q. */
  predicate MayStray(left: nat, open: bool, dir: char, word: string)
    decreases |word|
  {
    if word == "" || left == 0 then false
    else
      var on, kind := dir == '+', KindOf(word[0]);
      if IsLocalList(kind) then Strays(left - 1, open, dir, word[1..])
      else MayStray(LeftAfter(left, on, kind), OpenAfter(open, on, kind), Turn(dir, word[0]), word[1..])
  }

  /** Whether there is surely no limit after a character. */
  predicate OpenAfter(open: bool, on: bool, kind: ModeKind) {
    if kind.LimitMode? then !on else open
  }

  /** A mode word that cannot stray with at most `n` arguments. */
  predicate Replicable(word: string, n: nat) {
    !MayStray(n, false, '+', word)
  }

  /** Two nodes with agreeing copies of a standard channel. */
  ghost predicate Replicas(wa: WorldState, a: ChanState, wb: WorldState, b: ChanState) {
    wa.Valid() && wb.Valid() && wa.mapping == wb.mapping && IsStandard(a.name) && Agree(wa, a, wb, b)
  }

  /** The copies agree after one node runs a line and the other replays its echo. */
  ghost predicate AgreeAfter(wa: WorldState, a: ChanState, wb: WorldState, b: ChanState, word: string,
                             args: seq<string>, now: int, later: int)
  {
    var o := LocalRun(wa, a, '+', word, args, now);
    Agree(wa, o.ch, wb, RemoteRun(wb, b, '+', o.changes, o.params, later))
  }

  /** A mode word keeps agreement, whatever the replicas and the arguments: any that a line can carry, where
      only the last may be empty or have spaces, and no more than `n`. */
  ghost predicate KeepsAgreement(word: string, n: nat) {
    forall wa, a, wb, b, args, now: int, later: int ::
      Replicas(wa, a, wb, b) && |args| <= n && ParamsOk(args) ==> AgreeAfter(wa, a, wb, b, word, args, now, later)
  }

  // ----- unfolding one character of both runs -----

  /** The replay of an echo that starts with an echoed change. */
  lemma ReplayHead(w: WorldState, b: ChanState, e: Effect, dir: char, dir': char, mc: char, rest: Outcome,
                   queue: seq<string>, later: int)
    requires e.echoed && IsSign(dir) && !IsSign(mc)
    ensures var r := RemoteEffect(w, b, dir == '+', KindOf(mc), queue, later);
            RemoteRun(w, b, dir', Prepend(e, dir, mc, rest).changes, queue, later)
              == RemoteRun(w, r.0, dir, rest.changes, queue[r.1..], later)
  {
    EchoHead(e, dir, mc, rest);
    var changes := Prepend(e, dir, mc, rest).changes;
    assert RemoteRun(w, b, dir', changes, queue, later) == RemoteRun(w, b, dir, changes[1..], queue, later);
  }

  lemma SilentHead(e: Effect, dir: char, mc: char, rest: Outcome)
    requires !e.echoed && e.param == []
    ensures Prepend(e, dir, mc, rest).changes == rest.changes && Prepend(e, dir, mc, rest).params == rest.params
  {
  }

  // ----- replicable lines keep agreement -----

  /** Agreement up to a wrong key or limit that the rest of the word puts right. */
  ghost predicate Loose(wa: WorldState, a: ChanState, wb: WorldState, b: ChanState, wrongKey: bool, wrongLimit: bool) {
    LooseSettings(a, b, wrongKey, wrongLimit) && SameViews(wa, a, wb, b)
  }

  ghost predicate LooseSettings(a: ChanState, b: ChanState, wrongKey: bool, wrongLimit: bool) {
    && SameReplicatedModes(a.modes, b.modes) && a.lists.bans.Keys == b.lists.bans.Keys
    && (if wrongKey then a.key == "" ==> b.key == "" else a.key == b.key)
    && (if wrongLimit then a.limit == 0 ==> b.limit == 0 else a.limit == b.limit)
  }

  /** The other node's copy after a character whose echo, if any, meets the arguments in `queue`. */
  function Answer(w: WorldState, b: ChanState, e: Effect, on: bool, kind: ModeKind, queue: seq<string>,
                  later: int): ChanState
  {
    if e.echoed then RemoteEffect(w, b, on, kind, queue, later).0 else b
  }

  predicate OnlySettings(kind: ModeKind) {
    !kind.FlagMode? && kind != ListMode(Ban)
  }

  lemma ShiftedMembers(wa: WorldState, a: ChanState, wb: WorldState, b: ChanState, on: bool, kind: ModeKind,
                       args: seq<string>, queue: seq<string>, now: int, later: int)
    requires OnlySettings(kind)
    ensures var e := LocalEffect(wa, a, on, kind, args, now);
            e.ch.members == a.members && Answer(wb, b, e, on, kind, queue, later).members == b.members
  {
  }

  lemma ShiftedKey(a: ChanState, b: ChanState, on: bool, args: seq<string>, queue: seq<string>)
    requires a.key == "" ==> b.key == ""
    ensures var e := LocalKey(a, on, args);
            var b' := if e.echoed then RemoteKey(b, on, queue) else b;
            && (if on then e.ch.key == "" ==> b'.key == "" else e.ch.key == b'.key)
            && e.ch == a.(key := e.ch.key) && b' == b.(key := b'.key)
  {
  }

  lemma ShiftedLimit(a: ChanState, b: ChanState, on: bool, args: seq<string>, queue: seq<string>)
    requires (a.limit == 0 ==> b.limit == 0) && (on ==> a.limit == b.limit == 0)
    ensures var e := LocalLimit(a, on, args);
            var b' := if e.echoed then RemoteLimit(b, on, queue) else b;
            && (if on then e.ch.limit == 0 ==> b'.limit == 0 else e.ch.limit == b'.limit)
            && e.ch == a.(limit := e.ch.limit) && b' == b.(limit := b'.limit)
  {
  }

  lemma ShiftedOther(wa: WorldState, a: ChanState, wb: WorldState, b: ChanState, on: bool, kind: ModeKind,
                     args: seq<string>, queue: seq<string>, now: int, later: int)
    requires SameReplicatedModes(a.modes, b.modes) && IsStandard(a.name)
    requires kind.BoolMode? || IsLocalList(kind) || kind.NoMode?
    ensures var e := LocalEffect(wa, a, on, kind, args, now);
            var b' := Answer(wb, b, e, on, kind, queue, later);
            && SameReplicatedModes(e.ch.modes, b'.modes) && b' == b.(modes := b'.modes)
            && e.ch == a.(modes := e.ch.modes, lists := e.ch.lists) && e.ch.lists.bans == a.lists.bans
  {
    match kind
    case BoolMode(mode) => SetKeepsReplicated(a.modes, b.modes, mode, on);
    case ListMode(_) =>
    case NoMode =>
  }

  lemma ShiftedSettings(wa: WorldState, a: ChanState, wb: WorldState, b: ChanState, wrongKey: bool, wrongLimit: bool,
                        on: bool, kind: ModeKind, args: seq<string>, queue: seq<string>, now: int, later: int)
    requires LooseSettings(a, b, wrongKey, wrongLimit) && IsStandard(a.name) && OnlySettings(kind)
    requires kind.LimitMode? && on ==> !wrongLimit && a.limit == 0
    ensures var e := LocalEffect(wa, a, on, kind, args, now);
            LooseSettings(e.ch, Answer(wb, b, e, on, kind, queue, later),
                          if kind.KeyMode? then on else wrongKey, if kind.LimitMode? then on else wrongLimit)
  {
    match kind
    case KeyMode => ShiftedKey(a, b, on, args, queue);
    case LimitMode => ShiftedLimit(a, b, on, args, queue);
    case _ => ShiftedOther(wa, a, wb, b, on, kind, args, queue, now, later);
  }

  lemma LimitAfter(w: WorldState, a: ChanState, open: bool, on: bool, kind: ModeKind, args: seq<string>, now: int)
    requires open ==> a.limit == 0
    ensures OpenAfter(open, on, kind) ==> LocalEffect(w, a, on, kind, args, now).ch.limit == 0
  {
  }

  /** One character after arguments have shifted. */
  lemma ShiftedStep(wa: WorldState, a: ChanState, wb: WorldState, b: ChanState, wrongKey: bool, wrongLimit: bool,
                    on: bool, kind: ModeKind, args: seq<string>, queue: seq<string>, now: int, later: int)
    requires Loose(wa, a, wb, b, wrongKey, wrongLimit) && IsStandard(a.name) && OnlySettings(kind)
    requires kind.LimitMode? && on ==> !wrongLimit && a.limit == 0
    ensures var e := LocalEffect(wa, a, on, kind, args, now);
            Loose(wa, e.ch, wb, Answer(wb, b, e, on, kind, queue, later),
                  if kind.KeyMode? then on else wrongKey, if kind.LimitMode? then on else wrongLimit)
  {
    var e := LocalEffect(wa, a, on, kind, args, now);
    ShiftedMembers(wa, a, wb, b, on, kind, args, queue, now, later);
    ShiftedSettings(wa, a, wb, b, wrongKey, wrongLimit, on, kind, args, queue, now, later);
    SameMembersKeepViews(wa, a, wb, b, e.ch, Answer(wb, b, e, on, kind, queue, later));
  }

  /** What is left to do right, and can be. */
  ghost predicate Mends(left: nat, open: bool, wrongKey: bool, wrongLimit: bool, limit: int, dir: char, word: string) {
    && !Strays(left, open, dir, word) && (wrongKey ==> Clears(dir, word))
    && (if wrongLimit then NextLimit(left, dir, word) == Some(false) else open ==> limit == 0)
  }

  /** A character that finds no argument left. */
  predicate Starved(on: bool, kind: ModeKind, args: seq<string>) {
    TakesArgument(on, kind) && args == []
  }

  lemma StarvedDoesNothing(w: WorldState, a: ChanState, on: bool, kind: ModeKind, now: int)
    requires TakesArgument(on, kind)
    ensures LocalEffect(w, a, on, kind, [], now) == Skip(a, 0)
  {
  }

  lemma StarvedMends(left: nat, open: bool, wrongKey: bool, wrongLimit: bool, limit: int, dir: char, word: string)
    requires Mends(left, open, wrongKey, wrongLimit, limit, dir, word) && IsSign(dir) && word != "" && !IsSign(word[0])
    requires TakesArgument(dir == '+', KindOf(word[0]))
    ensures Mends(LeftAfter(left, dir == '+', KindOf(word[0])), open, wrongKey, wrongLimit, limit, dir, word[1..])
  {
  }

  lemma NextMends(left: nat, open: bool, wrongKey: bool, wrongLimit: bool, limit: int, dir: char, word: string,
                  limit': int)
    requires Mends(left, open, wrongKey, wrongLimit, limit, dir, word) && IsSign(dir) && word != "" && !IsSign(word[0])
    requires TakesArgument(dir == '+', KindOf(word[0])) ==> left > 0
    requires KindOf(word[0]).LimitMode? && dir != '+' ==> limit' == 0
    requires !KindOf(word[0]).LimitMode? ==> limit' == limit
    ensures var on, kind := dir == '+', KindOf(word[0]);
            && OnlySettings(kind) && (kind.LimitMode? && on ==> !wrongLimit && limit == 0)
            && Mends(LeftAfter(left, on, kind), open || (kind.LimitMode? && !on),
                     if kind.KeyMode? then on else wrongKey, if kind.LimitMode? then on else wrongLimit, limit', dir,
                     word[1..])
  {
  }

  /** Once arguments have shifted, a word that cannot stray leads to agreement whatever arguments the other
      node is given. */
  lemma {:induction false} ShiftedRunAgrees(wa: WorldState, a: ChanState, wb: WorldState, b: ChanState, left: nat,
                                            open: bool, wrongKey: bool, wrongLimit: bool, dir: char, dir': char,
                                            word: string, args: seq<string>, queue: seq<string>, now: int, later: int)
    requires IsStandard(a.name) && IsSign(dir) && |args| <= left
    requires Loose(wa, a, wb, b, wrongKey, wrongLimit) && Mends(left, open, wrongKey, wrongLimit, a.limit, dir, word)
    ensures var o := LocalRun(wa, a, dir, word, args, now);
            Agree(wa, o.ch, wb, RemoteRun(wb, b, dir', o.changes, queue, later))
    decreases |word|
  {
    hide Loose;
    if word == "" {
      LooseIsAgree(wa, a, wb, b);
    } else if IsSign(word[0]) {
      ShiftedRunAgrees(wa, a, wb, b, left, open, wrongKey, wrongLimit, word[0], dir', word[1..], args, queue, now,
                       later);
    } else {
      hide Agree, Mends;
      var on, kind := dir == '+', KindOf(word[0]);
      var left' := LeftAfter(left, on, kind);
      var e := LocalEffect(wa, a, on, kind, args, now);
      var rest := LocalRun(wa, e.ch, dir, word[1..], args[e.used..], now);
      if Starved(on, kind, args) {
        StarvedDoesNothing(wa, a, on, kind, now);
        SilentHead(e, dir, word[0], rest);
        StarvedMends(left, open, wrongKey, wrongLimit, a.limit, dir, word);
        ShiftedRunAgrees(wa, a, wb, b, left', open, wrongKey, wrongLimit, dir, dir', word[1..], args[e.used..], queue,
                         now, later);
      } else {
        var wrongKey' := if kind.KeyMode? then on else wrongKey;
        var wrongLimit' := if kind.LimitMode? then on else wrongLimit;
        var open' := open || (kind.LimitMode? && !on);
        UsesItsArgument(wa, a, on, kind, args, now);
        LimitKept(wa, a, on, kind, args, now);
        NextMends(left, open, wrongKey, wrongLimit, a.limit, dir, word, e.ch.limit);
        ShiftedStep(wa, a, wb, b, wrongKey, wrongLimit, on, kind, args, queue, now, later);
        LocalEffectFrame(wa, a, on, kind, args, now);
        if e.echoed {
          ReplayHead(wb, b, e, dir, dir', word[0], rest, queue, later);
          var r := RemoteEffect(wb, b, on, kind, queue, later);
          ShiftedRunAgrees(wa, e.ch, wb, r.0, left', open', wrongKey', wrongLimit', dir, dir, word[1..],
                           args[e.used..], queue[r.1..], now, later);
        } else {
          SilentMeansUnchanged(wa, a, on, kind, args, now);
          SilentHead(e, dir, word[0], rest);
          ShiftedRunAgrees(wa, a, wb, b, left', open', wrongKey', wrongLimit', dir, dir', word[1..], args[e.used..],
                           queue, now, later);
        }
      }
    }
  }

  lemma LimitKept(w: WorldState, a: ChanState, on: bool, kind: ModeKind, args: seq<string>, now: int)
    ensures var e := LocalEffect(w, a, on, kind, args, now);
            (kind.LimitMode? && !on ==> e.ch.limit == 0) && (!kind.LimitMode? ==> e.ch.limit == a.limit)
  {
  }

  lemma UsesItsArgument(w: WorldState, a: ChanState, on: bool, kind: ModeKind, args: seq<string>, now: int)
    ensures LocalEffect(w, a, on, kind, args, now).used == if TakesArgument(on, kind) && args != [] then 1 else 0
  {
  }

  lemma LooseIsAgree(wa: WorldState, a: ChanState, wb: WorldState, b: ChanState)
    ensures Loose(wa, a, wb, b, false, false) <==> Agree(wa, a, wb, b)
  {
  }

  lemma {:induction false} ReplicasAgreeFrom(wa: WorldState, a: ChanState, wb: WorldState, b: ChanState, left: nat,
                                             open: bool, dir: char, dir': char, word: string, args: seq<string>,
                                             now: int, later: int)
    requires Replicas(wa, a, wb, b) && IsSign(dir) && |args| <= left
    requires !MayStray(left, open, dir, word) && (open ==> a.limit == 0)
    ensures var o := LocalRun(wa, a, dir, word, args, now);
            Agree(wa, o.ch, wb, RemoteRun(wb, b, dir', o.changes, o.params, later))
    decreases |word|
  {
    if word == "" {
    } else if IsSign(word[0]) {
      ReplicasAgreeFrom(wa, a, wb, b, left, open, word[0], dir', word[1..], args, now, later);
    } else {
      var on, kind := dir == '+', KindOf(word[0]);
      var left' := LeftAfter(left, on, kind);
      var e := LocalEffect(wa, a, on, kind, args, now);
      var rest := LocalRun(wa, e.ch, dir, word[1..], args[e.used..], now);
      var o := Prepend(e, dir, word[0], rest);
      LocalEffectFrame(wa, a, on, kind, args, now);
      UsesItsArgument(wa, a, on, kind, args, now);
      LimitAfter(wa, a, open, on, kind, args, now);
      if left > 0 && IsLocalList(kind) {
        ListReplays(wa, a, wb, b, left, open, dir, dir', word, args, now, later);
      } else if e.echoed {
        ReplayOne(wa, a, wb, b, on, kind, args, rest.params, now, later);
        ReplayHead(wb, b, e, dir, dir', word[0], rest, o.params, later);
        EchoHead(e, dir, word[0], rest);
        var r := RemoteEffect(wb, b, on, kind, o.params, later);
        ReplicasAgreeFrom(wa, e.ch, wb, r.0, left', OpenAfter(open, on, kind), dir, dir, word[1..], args[e.used..], now,
                          later);
      } else {
        SilentMeansUnchanged(wa, a, on, kind, args, now);
        SilentHead(e, dir, word[0], rest);
        ReplicasAgreeFrom(wa, a, wb, b, left', if left == 0 then open else OpenAfter(open, on, kind), dir, dir',
                          word[1..], args[e.used..], now, later);
      }
    }
  }

  /** The first e, I or q: from here on the other node's arguments may have shifted. */
  lemma ListReplays(wa: WorldState, a: ChanState, wb: WorldState, b: ChanState, left: nat, open: bool, dir: char,
                    dir': char, word: string, args: seq<string>, now: int, later: int)
    requires Replicas(wa, a, wb, b) && IsSign(dir) && word != "" && !IsSign(word[0]) && IsLocalList(KindOf(word[0]))
    requires |args| <= left && left > 0 && !Strays(left - 1, open, dir, word[1..]) && (open ==> a.limit == 0)
    ensures var o := LocalRun(wa, a, dir, word, args, now);
            Agree(wa, o.ch, wb, RemoteRun(wb, b, dir', o.changes, o.params, later))
  {
    hide Agree, Loose, WorldState.Valid, Strays, Clears, NextLimit;
    var on, kind := dir == '+', KindOf(word[0]);
    var e := LocalEffect(wa, a, on, kind, args, now);
    var rest := LocalRun(wa, e.ch, dir, word[1..], args[e.used..], now);
    var o := Prepend(e, dir, word[0], rest);
    UsesItsArgument(wa, a, on, kind, args, now);
    ListKeepsAgreement(wa, a, wb, b, on, kind, args, now);
    LooseIsAgree(wa, e.ch, wb, b);
    if e.echoed {
      ReplayHead(wb, b, e, dir, dir', word[0], rest, o.params, later);
      assert o.params[0..] == o.params;
      ShiftedRunAgrees(wa, e.ch, wb, b, left - 1, open, false, false, dir, dir, word[1..], args[e.used..], o.params,
                       now, later);
    } else {
      SilentMeansUnchanged(wa, a, on, kind, args, now);
      SilentHead(e, dir, word[0], rest);
      ShiftedRunAgrees(wa, e.ch, wb, b, left - 1, open, false, false, dir, dir', word[1..], args[e.used..], o.params,
                       now, later);
    }
  }

  lemma ListKeepsAgreement(wa: WorldState, a: ChanState, wb: WorldState, b: ChanState, on: bool, kind: ModeKind,
                           args: seq<string>, now: int)
    requires Agree(wa, a, wb, b) && IsLocalList(kind)
    ensures var e := LocalEffect(wa, a, on, kind, args, now);
            Agree(wa, e.ch, wb, b) && e.ch.name == a.name && e.ch.limit == a.limit
  {
    SameMembersKeepViews(wa, a, wb, b, LocalEffect(wa, a, on, kind, args, now).ch, b);
  }
}
