/** A MODE line keeps replicas in agreement if and only if it is replicable: for every other line there are
    replicas and arguments that drive them apart. */
module ModeStrays {
  import opened Prelude
  import opened Numbers
  import opened CaseMap
  import opened State
  import opened WireSpec
  import opened ModeSpec
  import opened ModeProofs
  import opened ModeReplicas

  // ----- the stage -----

  const MEMBERS: map<UserID, Membership> := map[1 := NO_FLAGS, 2 := Membership(true, true, false)]

  /** User 1 is "n", user 2 is "p", and nobody has the name of a stray argument. */
  ghost predicate Stage(w: WorldState) {
    && w.Valid()
    && w.FindByNick("n").Some? && w.FindByNick("n").value.id == 1
    && w.FindByNick("p").Some? && w.FindByNick("p").value.id == 2
    && w.FindByNick("x").None? && w.FindByNick("z").None? && w.FindByNick("7").None?
  }

  /** Both copies, the direction of the echo, and the argument, if any, that waits on the other node for a
      letter to take it. */
  datatype Pair = Pair(a: ChanState, b: ChanState, dir': char, pending: seq<string>)

  predicate IsPending(pending: seq<string>) {
    pending == [] || pending == ["x"] || pending == ["z"] || pending == ["7"]
  }

  function LimitIf(open: bool): Int64 {
    if open then 0 else 5
  }

  ghost predicate SteadyHere(a: ChanState, limit: int) {
    && a.members == MEMBERS && a.lists.bans.Keys == {"w"} && (a.key == "" || a.key == "7") && a.limit == limit
    && forall kind: MaskKind :: "w" in a.lists.Get(kind) && "y" !in a.lists.Get(kind)
  }

  ghost predicate SteadyThere(b: ChanState, limit: int) {
    b.members == MEMBERS && b.lists.bans.Keys == {"w"} && b.limit == limit
  }

  /** Neither the members nor the bans have changed, and the limit is 0 or 5 on both nodes. */
  ghost predicate Steady(s: Pair, open: bool) {
    SteadyHere(s.a, LimitIf(open)) && SteadyThere(s.b, LimitIf(open)) && IsPending(s.pending)
  }

  ghost predicate Fresh(a: ChanState) {
    forall kind: MaskKind :: kind != Ban ==> "z" in a.lists.Get(kind) && "x" !in a.lists.Get(kind)
  }

  lemma Digits()
    ensures ParseInt("0") == Some(0) && ParseInt("5") == Some(5) && ParseInt("7") == Some(7)
    ensures ParseInt("x").None? && ParseInt("z").None?
  {
    assert forall c: char :: IsDigit(c) ==> [c][..0] == "" && NatOf([c]) == DigitValue(c);
    assert !IsDigit("x"[0]) && !IsDigit("z"[0]);
  }

  // ----- one character at a time -----

  /** The copies at the end of the line, and whether they differ. */
  function Ends(w: WorldState, s: Pair, dir: char, word: string, args: seq<string>, now: int): (ChanState, ChanState) {
    var o := LocalRun(w, s.a, dir, word, args, now);
    (o.ch, RemoteRun(w, s.b, s.dir', o.changes, s.pending + o.params, now))
  }

  ghost predicate Splits(w: WorldState, s: Pair, dir: char, word: string, args: seq<string>, now: int) {
    var (p, q) := Ends(w, s, dir, word, args, now);
    !Agree(w, p, w, q)
  }

  /** Arguments for the rest of a line that drive the copies apart. */
  ghost predicate Parts(w: WorldState, s: Pair, left: nat, dir: char, word: string, args: seq<string>, now: int) {
    Splits(w, s, dir, word, args, now) && |args| <= left && AllWords(args)
  }

  ghost predicate AllWords(args: seq<string>) {
    forall i :: 0 <= i < |args| ==> MiddleOk(args[i])
  }

  /** The copies after one character that is given the arguments `args`. */
  function Stepped(w: WorldState, s: Pair, dir: char, mc: char, args: seq<string>, now: int): Pair {
    var on, kind := dir == '+', KindOf(mc);
    var e := LocalEffect(w, s.a, on, kind, args, now);
    if !e.echoed then s.(a := e.ch)
    else
      var queue := s.pending + e.param;
      var r := RemoteEffect(w, s.b, on, kind, queue, now);
      Pair(e.ch, r.0, dir, queue[r.1..])
  }

  /** A character is given an argument if it takes one. */
  predicate Fed(on: bool, kind: ModeKind, args: seq<string>) {
    |args| == if TakesArgument(on, kind) then 1 else 0
  }

  lemma FedEffect(w: WorldState, a: ChanState, on: bool, kind: ModeKind, args: seq<string>, more: seq<string>, now: int)
    requires Fed(on, kind, args)
    ensures var e := LocalEffect(w, a, on, kind, args, now);
            && LocalEffect(w, a, on, kind, args + more, now) == e && (args + more)[e.used..] == more
            && (e.echoed ==> |e.param| == |args|)
  {
    UsesItsArgument(w, a, on, kind, args, now);
    assert args != [] ==> (args + more)[0] == args[0];
  }

  lemma FirstTaken(w: WorldState, b: ChanState, on: bool, kind: ModeKind, queue: seq<string>, more: seq<string>,
                   now: int)
    requires TakesArgument(on, kind) ==> queue != []
    ensures var r := RemoteEffect(w, b, on, kind, queue, now);
            RemoteEffect(w, b, on, kind, queue + more, now) == r && (queue + more)[r.1..] == queue[r.1..] + more
  {
    assert queue != [] ==> (queue + more)[0] == queue[0];
  }

  lemma StepHead(w: WorldState, s: Pair, dir: char, word: string, args: seq<string>, more: seq<string>, now: int)
    requires word != "" && IsSign(dir) && !IsSign(word[0]) && Fed(dir == '+', KindOf(word[0]), args)
    ensures Ends(w, s, dir, word, args + more, now)
         == Ends(w, Stepped(w, s, dir, word[0], args, now), dir, word[1..], more, now)
  {
    var on, kind := dir == '+', KindOf(word[0]);
    var e := LocalEffect(w, s.a, on, kind, args, now);
    var rest := LocalRun(w, e.ch, dir, word[1..], more, now);
    FedEffect(w, s.a, on, kind, args, more, now);
    if e.echoed {
      var queue := s.pending + e.param;
      assert s.pending + (e.param + rest.params) == queue + rest.params;
      ReplayHead(w, s.b, e, dir, s.dir', word[0], rest, queue + rest.params, now);
      FirstTaken(w, s.b, on, kind, queue, rest.params, now);
    } else {
      SilentMeansUnchanged(w, s.a, on, kind, args, now);
      SilentHead(e, dir, word[0], rest);
    }
  }

  /** Arguments that part the rest of the line part the whole of it. */
  lemma StepParts(w: WorldState, s: Pair, left: nat, dir: char, word: string, args: seq<string>, more: seq<string>,
                  now: int)
    requires word != "" && IsSign(dir) && !IsSign(word[0]) && Fed(dir == '+', KindOf(word[0]), args) && AllWords(args)
    requires left > 0 && Parts(w, Stepped(w, s, dir, word[0], args, now), LeftAfter(left, dir == '+', KindOf(word[0])),
             dir, word[1..], more, now)
    ensures Parts(w, s, left, dir, word, args + more, now)
  {
    hide Agree, MiddleOk;
    StepHead(w, s, dir, word, args, more, now);
  }

  // ----- characters that are given nothing to do -----

  /** An argument that has no effect: nobody's nick, a mask that is there or is not, the key, no number. */
  function DullArgument(on: bool, kind: ModeKind): seq<string> {
    if !TakesArgument(on, kind) then []
    else
      match kind
      case ListMode(_) => [if on then "w" else "y"]
      case KeyMode => ["7"]
      case _ => ["x"]
  }

  lemma DullIsWord(on: bool, kind: ModeKind)
    ensures Fed(on, kind, DullArgument(on, kind)) && AllWords(DullArgument(on, kind))
  {
  }

  function Dull(w: WorldState, s: Pair, dir: char, mc: char, now: int): Pair {
    Stepped(w, s, dir, mc, DullArgument(dir == '+', KindOf(mc)), now)
  }

  /** Only a -l has something to do, and a +k when there is no key. */
  lemma DullKeepsHere(w: WorldState, a: ChanState, limit: int, on: bool, kind: ModeKind, now: int)
    requires Stage(w) && SteadyHere(a, limit) && !(kind.LimitMode? && !on && limit != 0)
    ensures var e := LocalEffect(w, a, on, kind, DullArgument(on, kind), now);
            && SteadyHere(e.ch, limit) && e.ch.lists == a.lists
            && (e.echoed ==> kind.BoolMode? || (kind.KeyMode? && e.param == if on then ["7"] else []))
  {
    Digits();
  }

  lemma DullKeepsThere(w: WorldState, b: ChanState, limit: int, on: bool, kind: ModeKind, pending: seq<string>,
                       param: seq<string>, now: int)
    requires SteadyThere(b, limit) && IsPending(pending)
    requires (kind.BoolMode? && param == []) || (kind.KeyMode? && param == if on then ["7"] else [])
    ensures var r := RemoteEffect(w, b, on, kind, pending + param, now);
            && SteadyThere(r.0, limit) && IsPending((pending + param)[r.1..])
            && ((pending + param)[r.1..] == pending || (pending + param)[r.1..] == ["7"])
            && ((pending + param)[r.1..] == [] <==> pending == [])
  {
  }

  lemma BoolParam(w: WorldState, a: ChanState, on: bool, kind: ModeKind, args: seq<string>, now: int)
    requires kind.BoolMode?
    ensures LocalEffect(w, a, on, kind, args, now).param == []
  {
  }

  /** Everything stays steady; a stray argument stays, or makes way for the "7" of a key. */
  lemma DullKeeps(w: WorldState, s: Pair, limit: int, dir: char, mc: char, now: int)
    requires Stage(w) && SteadyHere(s.a, limit) && SteadyThere(s.b, s.b.limit) && IsPending(s.pending)
    requires !(KindOf(mc).LimitMode? && dir != '+' && limit != 0)
    ensures var s' := Dull(w, s, dir, mc, now);
            && SteadyHere(s'.a, limit) && s'.a.lists == s.a.lists && SteadyThere(s'.b, s.b.limit)
            && IsPending(s'.pending) && (s'.pending == s.pending || s'.pending == ["7"])
            && (s'.pending == [] <==> s.pending == [])
  {
    hide SteadyHere, SteadyThere, Stage;
    var on, kind := dir == '+', KindOf(mc);
    DullKeepsHere(w, s.a, limit, on, kind, now);
    var e := LocalEffect(w, s.a, on, kind, DullArgument(on, kind), now);
    if e.echoed {
      if kind.BoolMode? {
        BoolParam(w, s.a, on, kind, DullArgument(on, kind), now);
      }
      DullKeepsThere(w, s.b, s.b.limit, on, kind, s.pending, e.param, now);
    }
  }

  lemma DullKeepsSteady(w: WorldState, s: Pair, open: bool, dir: char, mc: char, now: int)
    requires Stage(w) && Steady(s, open) && !(KindOf(mc).LimitMode? && dir != '+' && !open)
    ensures var s' := Dull(w, s, dir, mc, now);
            && Steady(s', open) && s'.a.lists == s.a.lists && (s'.pending == [] <==> s.pending == [])
  {
    DullKeeps(w, s, LimitIf(open), dir, mc, now);
  }

  // ----- after the break -----

  /** When the line has no arguments left, a key without a -k to come, a limit without another l, a limit of
      zero, members and bans all stay. */
  lemma {:induction false} NoArgumentsLeft(w: WorldState, a: ChanState, b: ChanState, dir: char, dir': char,
                                           word: string, queue: seq<string>, now: int)
    requires IsSign(dir)
    ensures var o := LocalRun(w, a, dir, word, [], now);
            var r := RemoteRun(w, b, dir', o.changes, queue, now);
            && o.params == [] && o.ch.members == a.members && r.members == b.members
            && o.ch.lists.bans == a.lists.bans && r.lists.bans == b.lists.bans
            && (!Clears(dir, word) ==> o.ch.key == a.key && r.key == b.key)
            && (a.limit == 0 || NextLimit(0, dir, word).None? ==> o.ch.limit == a.limit && r.limit == b.limit)
    decreases |word|
  {
    if word == "" {
    } else if IsSign(word[0]) {
      NoArgumentsLeft(w, a, b, word[0], dir', word[1..], queue, now);
    } else {
      var on, kind := dir == '+', KindOf(word[0]);
      var e := LocalEffect(w, a, on, kind, [], now);
      var rest := LocalRun(w, e.ch, dir, word[1..], [], now);
      BareStep(w, a, b, on, kind, queue, now);
      if e.echoed {
        ReplayHead(w, b, e, dir, dir', word[0], rest, queue, now);
        assert queue[0..] == queue;
        NoArgumentsLeft(w, e.ch, RemoteEffect(w, b, on, kind, queue, now).0, dir, dir, word[1..], queue, now);
      } else {
        SilentHead(e, dir, word[0], rest);
        NoArgumentsLeft(w, e.ch, b, dir, dir', word[1..], queue, now);
      }
    }
  }

  /** One character without arguments. */
  lemma BareStep(w: WorldState, a: ChanState, b: ChanState, on: bool, kind: ModeKind, queue: seq<string>, now: int)
    ensures var e := LocalEffect(w, a, on, kind, [], now);
            && e.used == 0 && e.param == [] && e.ch.members == a.members && e.ch.lists == a.lists
            && (!(kind.KeyMode? && !on) ==> e.ch.key == a.key)
            && (!kind.LimitMode? || on || a.limit == 0 ==> e.ch.limit == a.limit)
    ensures LocalEffect(w, a, on, kind, [], now).echoed ==>
              var r := RemoteEffect(w, b, on, kind, queue, now);
              && r.1 == 0 && r.0.members == b.members && r.0.lists == b.lists
              && (!(kind.KeyMode? && !on) ==> r.0.key == b.key)
              && (!kind.LimitMode? || on || a.limit == 0 ==> r.0.limit == b.limit)
  {
  }

  /** No l to come with some arguments left means none with no argument left. */
  lemma {:induction false} NoLimitAtAll(left: nat, dir: char, word: string)
    requires NextLimit(left, dir, word).None?
    ensures NextLimit(0, dir, word).None?
    decreases |word|
  {
    if word != "" {
      NoLimitAtAll(LeftAfter(left, dir == '+', KindOf(word[0])), Turn(dir, word[0]), word[1..]);
    }
  }

  // ----- the break -----

  /** A stray argument is waiting on the other node. */
  predicate Stray(s: Pair) {
    IsPending(s.pending) && s.pending != []
  }

  /** The character takes `arg` here and the stray argument there; then no arguments are left. */
  lemma Break(w: WorldState, s: Pair, dir: char, word: string, arg: string, now: int)
    requires word != "" && IsSign(dir) && !IsSign(word[0]) && TakesArgument(dir == '+', KindOf(word[0]))
    ensures var s' := Stepped(w, s, dir, word[0], [arg], now);
            var (p, q) := Ends(w, s, dir, word, [arg], now);
            && p.members == s'.a.members && q.members == s'.b.members
            && p.lists.bans == s'.a.lists.bans && q.lists.bans == s'.b.lists.bans
            && (!Clears(dir, word[1..]) ==> p.key == s'.a.key && q.key == s'.b.key)
            && (s'.a.limit == 0 || NextLimit(0, dir, word[1..]).None? ==>
               p.limit == s'.a.limit && q.limit == s'.b.limit)
  {
    var s' := Stepped(w, s, dir, word[0], [arg], now);
    StepHead(w, s, dir, word, [arg], [], now);
    assert [arg] + [] == [arg];
    var o := LocalRun(w, s'.a, dir, word[1..], [], now);
    NoArgumentsLeft(w, s'.a, s'.b, dir, s'.dir', word[1..], s'.pending + o.params, now);
  }

  /** The member whose flags a change in this direction alters. */
  function Target(on: bool): (string, UserID) {
    if on then ("n", 1) else ("p", 2)
  }

  lemma FlagStep(w: WorldState, s: Pair, dir: char, mc: char, now: int)
    requires Stage(w) && s.a.members == s.b.members == MEMBERS && Stray(s) && KindOf(mc).FlagMode?
    ensures var s' := Stepped(w, s, dir, mc, [Target(dir == '+').0], now);
            && s'.b.members == MEMBERS && Target(dir == '+').1 in s'.a.members
            && (s'.a.members[Target(dir == '+').1].op, s'.a.members[Target(dir == '+').1].voice)
                 != (MEMBERS[Target(dir == '+').1].op, MEMBERS[Target(dir == '+').1].voice)
  {
    var e := LocalEffect(w, s.a, dir == '+', KindOf(mc), [Target(dir == '+').0], now);
    assert KindOf(mc).flag != Creator;
    assert (s.pending + e.param)[0] == s.pending[0];
  }

  /** An operator or voice change goes to a member here and to nobody there. */
  lemma FlagBreaks(w: WorldState, s: Pair, dir: char, word: string, now: int) returns (arg: string)
    requires Stage(w) && s.a.members == s.b.members == MEMBERS && Stray(s)
    requires word != "" && IsSign(dir) && !IsSign(word[0]) && KindOf(word[0]).FlagMode?
    ensures Splits(w, s, dir, word, [arg], now) && MiddleOk(arg)
  {
    hide KindOf;
    arg := Target(dir == '+').0;
    FlagStep(w, s, dir, word[0], now);
    Break(w, s, dir, word, arg, now);
    var (p, q) := Ends(w, s, dir, word, [arg], now);
    assert MemberView(w, p, arg) != MemberView(w, q, arg);
  }

  lemma BanStep(w: WorldState, s: Pair, dir: char, mc: char, now: int)
    requires SteadyHere(s.a, s.a.limit) && SteadyThere(s.b, s.b.limit) && Stray(s) && KindOf(mc) == ListMode(Ban)
    ensures var arg := if dir == '+' then "y" else "w";
            var s' := Stepped(w, s, dir, mc, [arg], now);
            (arg in s'.a.lists.bans <==> dir == '+') && (arg in s'.b.lists.bans <==> dir != '+')
  {
    assert forall more: seq<string> :: (s.pending + more)[0] == s.pending[0];
  }

  lemma BanBreaks(w: WorldState, s: Pair, dir: char, word: string, now: int) returns (arg: string)
    requires SteadyHere(s.a, s.a.limit) && SteadyThere(s.b, s.b.limit) && Stray(s)
    requires word != "" && IsSign(dir) && !IsSign(word[0]) && KindOf(word[0]) == ListMode(Ban)
    ensures Splits(w, s, dir, word, [arg], now) && MiddleOk(arg)
  {
    hide KindOf;
    arg := if dir == '+' then "y" else "w";
    BanStep(w, s, dir, word[0], now);
    Break(w, s, dir, word, arg, now);
  }

  lemma KeyStep(w: WorldState, s: Pair, mc: char, now: int)
    requires SteadyHere(s.a, s.a.limit) && Stray(s) && KindOf(mc).KeyMode?
    ensures var s' := Stepped(w, s, '+', mc, ["y"], now); s'.a.key == "y" && s'.b.key == s.pending[0]
  {
    assert (s.pending + ["y"])[0] == s.pending[0];
  }

  lemma KeyBreaks(w: WorldState, s: Pair, word: string, now: int)
    requires SteadyHere(s.a, s.a.limit) && Stray(s)
    requires word != "" && !IsSign(word[0]) && KindOf(word[0]).KeyMode? && !Clears('+', word[1..])
    ensures Splits(w, s, '+', word, ["y"], now)
  {
    hide KindOf;
    KeyStep(w, s, word[0], now);
    Break(w, s, '+', word, "y", now);
  }

  /** The limit that a +l with `arg` sets here, and the one that a stray argument sets there. */
  lemma LimitStep(w: WorldState, s: Pair, mc: char, arg: string, limit: Int64, now: int)
    requires Stray(s) && KindOf(mc).LimitMode? && ParseInt(arg) == Some(limit) && limit >= 0 && s.a.limit != limit
    ensures var s' := Stepped(w, s, '+', mc, [arg], now);
            && s'.a == s.a.(limit := limit) && s'.pending == [arg] && s'.b == s.b.(limit := s'.b.limit)
            && s'.b.limit == if s.pending == ["7"] then 7 else s.b.limit
  {
    Digits();
    assert (s.pending + [arg])[0] == s.pending[0] && (s.pending + [arg])[1..] == [arg];
  }

  /** A limit is dropped from 5 to 0, or raised from 0 to 5, here and not there. */
  lemma LimitBreaks(w: WorldState, s: Pair, open: bool, word: string, now: int)
    requires s.a.limit == s.b.limit == LimitIf(open) && Stray(s)
    requires word != "" && !IsSign(word[0]) && KindOf(word[0]).LimitMode?
    requires open ==> NextLimit(0, '+', word[1..]).None?
    ensures Splits(w, s, '+', word, [if open then "5" else "0"], now)
  {
    hide KindOf;
    Digits();
    var arg := if open then "5" else "0";
    LimitStep(w, s, word[0], arg, LimitIf(!open), now);
    Break(w, s, '+', word, arg, now);
  }

  lemma {:induction false} RaisesWithArguments(left: nat, dir: char, word: string)
    requires NextLimit(left, dir, word) == Some(true)
    ensures left > 0
    decreases |word|
  {
    if left == 0 {
      RaisesWithArguments(left, Turn(dir, word[0]), word[1..]);
    }
  }

  lemma RaceEnds(w: WorldState, s: Pair, word: string, now: int)
    requires SteadyHere(s.a, 7) && s.pending == ["7"] && word != "" && !IsSign(word[0]) && KindOf(word[0]).LimitMode?
    ensures Splits(w, s, '+', word, ["0"], now)
  {
    hide KindOf;
    Digits();
    LimitStep(w, s, word[0], "0", 0, now);
    Break(w, s, '+', word, "0", now);
  }

  /** With the limit at 7 here and a 7 still to come there, the next +l sets 0 here and 7 there. */
  lemma {:induction false} LimitRace(w: WorldState, s: Pair, left: nat, dir: char, word: string, now: int)
    returns (args: seq<string>)
    requires Stage(w) && SteadyHere(s.a, 7) && SteadyThere(s.b, s.b.limit) && s.pending == ["7"]
    requires IsSign(dir) && NextLimit(left, dir, word) == Some(true)
    ensures Parts(w, s, left, dir, word, args, now)
    decreases |word|
  {
    hide SteadyThere, Stage, Agree;
    RaisesWithArguments(left, dir, word);
    if IsSign(word[0]) {
      args := LimitRace(w, s, left, word[0], word[1..], now);
    } else if KindOf(word[0]).LimitMode? {
      args := ["0"];
      Digits();
      RaceEnds(w, s, word, now);
    } else {
      var on, kind := dir == '+', KindOf(word[0]);
      DullIsWord(on, kind);
      DullKeeps(w, s, 7, dir, word[0], now);
      var more := LimitRace(w, Dull(w, s, dir, word[0], now), LeftAfter(left, on, kind), dir, word[1..], now);
      args := DullArgument(on, kind) + more;
      StepParts(w, s, left, dir, word, DullArgument(on, kind), more, now);
    }
  }

  /** The first of two +l, from no limit. */
  lemma LimitRaces(w: WorldState, s: Pair, left: nat, word: string, now: int) returns (args: seq<string>)
    requires Stage(w) && Steady(s, true) && Stray(s) && left > 0
    requires word != "" && !IsSign(word[0]) && KindOf(word[0]).LimitMode?
    requires NextLimit(left - 1, '+', word[1..]) == Some(true)
    ensures Parts(w, s, left, '+', word, args, now)
  {
    hide SteadyHere, SteadyThere, Stage, Agree, Splits;
    Digits();
    var s' := Stepped(w, s, '+', word[0], ["7"], now);
    LimitLeavesSteady(s, true, 7, s'.b.limit);
    LimitStep(w, s, word[0], "7", 7, now);
    var more := LimitRace(w, s', left - 1, '+', word[1..], now);
    args := ["7"] + more;
    StepParts(w, s, left, '+', word, ["7"], more, now);
  }

  lemma LimitLeavesSteady(s: Pair, open: bool, here: Int64, there: Int64)
    requires Steady(s, open)
    ensures s.a.limit == s.b.limit == LimitIf(open)
    ensures SteadyHere(s.a.(limit := here), here) && SteadyThere(s.b.(limit := there), there)
  {
  }

  // ----- from the first e, I or q to the break -----

  /** Here is where a word strays. */
  predicate BreaksHere(left: nat, open: bool, dir: char, word: string)
    requires word != "" && left > 0
  {
    match KindOf(word[0])
    case FlagMode(_) => true
    case ListMode(masks) => masks == Ban
    case KeyMode => dir == '+' && !Clears(dir, word[1..])
    case LimitMode => dir == '+' && (!open || NextLimit(left - 1, dir, word[1..]) != Some(false))
    case _ => false
  }

  lemma StraysFurther(left: nat, open: bool, dir: char, word: string)
    requires word != "" && IsSign(dir) && !IsSign(word[0]) && Strays(left, open, dir, word) && left > 0
    requires !BreaksHere(left, open, dir, word)
    ensures var on, kind := dir == '+', KindOf(word[0]);
            Strays(LeftAfter(left, on, kind), open || (kind.LimitMode? && !on), dir, word[1..])
  {
  }

  /** The arguments that break a word here. */
  lemma BreakNow(w: WorldState, s: Pair, left: nat, open: bool, dir: char, word: string, now: int)
    returns (args: seq<string>)
    requires Stage(w) && Steady(s, open) && Stray(s) && left > 0
    requires word != "" && IsSign(dir) && !IsSign(word[0]) && BreaksHere(left, open, dir, word)
    ensures Parts(w, s, left, dir, word, args, now)
  {
    hide Stage, Agree;
    match KindOf(word[0])
    case FlagMode(_) =>
      var arg := FlagBreaks(w, s, dir, word, now);
      args := [arg];
    case ListMode(_) =>
      var arg := BanBreaks(w, s, dir, word, now);
      args := [arg];
    case KeyMode =>
      KeyBreaks(w, s, word, now);
      args := ["y"];
    case LimitMode =>
      var next := NextLimit(left - 1, dir, word[1..]);
      assert next.None? || next.value || next == Some(false);
      if open && next.Some? {
        args := LimitRaces(w, s, left, word, now);
      } else {
        if next.None? {
          NoLimitAtAll(left - 1, dir, word[1..]);
        }
        LimitBreaks(w, s, open, word, now);
        args := [if open then "5" else "0"];
      }
  }

  /** A -l with a limit set is echoed, and both nodes have none. */
  lemma DroppedLimit(w: WorldState, s: Pair, mc: char, now: int)
    requires Steady(s, false) && KindOf(mc).LimitMode?
    ensures var s' := Stepped(w, s, '-', mc, [], now);
            Steady(s', true) && s'.pending == s.pending && s'.a.lists == s.a.lists
  {
    assert s.pending + [] == s.pending && s.pending[0..] == s.pending;
  }

  /** Here a stray argument is waiting on the other node, and the rest of the word can stray. */
  lemma {:induction false} ShiftedRunStrays(w: WorldState, s: Pair, left: nat, open: bool, dir: char, word: string,
                                            now: int) returns (args: seq<string>)
    requires Stage(w) && Steady(s, open) && Stray(s) && IsSign(dir) && Strays(left, open, dir, word)
    ensures Parts(w, s, left, dir, word, args, now)
    decreases |word|
  {
    hide Stage, Agree, SteadyHere, SteadyThere, BreaksHere, MiddleOk;
    var on, kind := dir == '+', KindOf(word[0]);
    if IsSign(word[0]) {
      args := ShiftedRunStrays(w, s, left, open, word[0], word[1..], now);
    } else if BreaksHere(left, open, dir, word) {
      args := BreakNow(w, s, left, open, dir, word, now);
    } else {
      StraysFurther(left, open, dir, word);
      var left', open' := LeftAfter(left, on, kind), open || (kind.LimitMode? && !on);
      var now' := if kind.LimitMode? && !on then [] else DullArgument(on, kind);
      DullIsWord(on, kind);
      var s' := Stepped(w, s, dir, word[0], now', now);
      if kind.LimitMode? && !on && !open {
        DroppedLimit(w, s, word[0], now);
      } else {
        DullKeepsSteady(w, s, open, dir, word[0], now);
      }
      var more := ShiftedRunStrays(w, s', left', open', dir, word[1..], now);
      args := now' + more;
      StepParts(w, s, left, dir, word, now', more, now);
    }
  }

  // ----- from the start to the first e, I or q -----

  lemma ListStep(w: WorldState, s: Pair, open: bool, dir: char, mc: char, now: int)
    requires Steady(s, open) && Fresh(s.a) && s.pending == [] && IsSign(dir) && IsLocalList(KindOf(mc))
    ensures var mask := if dir == '+' then "x" else "z";
            var s' := Stepped(w, s, dir, mc, [mask], now);
            Steady(s', open) && s'.pending == [mask]
  {
    var mask := if dir == '+' then "x" else "z";
    var e := LocalEffect(w, s.a, dir == '+', KindOf(mc), [mask], now);
    assert e.echoed && e.param == [mask];
    forall other: MaskKind ensures "w" in e.ch.lists.Get(other) && "y" !in e.ch.lists.Get(other) {
      assert "w" in s.a.lists.Get(other) && "y" !in s.a.lists.Get(other);
    }
    assert s.pending + e.param == [mask];
  }

  /** The first e, I or q takes a mask that is new to, or in, its list. */
  lemma ListStrays(w: WorldState, s: Pair, left: nat, open: bool, dir: char, word: string, now: int)
    returns (args: seq<string>)
    requires Stage(w) && Steady(s, open) && Fresh(s.a) && s.pending == [] && left > 0
    requires word != "" && IsSign(dir) && !IsSign(word[0]) && IsLocalList(KindOf(word[0]))
    requires Strays(left - 1, open, dir, word[1..])
    ensures Parts(w, s, left, dir, word, args, now)
  {
    hide Stage, Agree, SteadyHere, SteadyThere;
    var mask := if dir == '+' then "x" else "z";
    ListStep(w, s, open, dir, word[0], now);
    var s' := Stepped(w, s, dir, word[0], [mask], now);
    var more := ShiftedRunStrays(w, s', left - 1, open, dir, word[1..], now);
    args := [mask] + more;
    StepParts(w, s, left, dir, word, [mask], more, now);
  }

  /** A +l sets the limit 5 on both nodes, a -l drops it. */
  lemma LimitInStep(w: WorldState, s: Pair, open: bool, dir: char, mc: char, now: int)
    requires Steady(s, open) && s.pending == [] && KindOf(mc).LimitMode?
    ensures var s' := Stepped(w, s, dir, mc, if dir == '+' then ["5"] else [], now);
            Steady(s', dir != '+') && s'.pending == [] && s'.a.lists == s.a.lists
  {
    Digits();
    assert [] + ["5"] == ["5"];
  }

  /** From equal copies, a word that may stray does for some arguments. */
  lemma {:induction false} RunStrays(w: WorldState, s: Pair, left: nat, open: bool, dir: char, word: string, now: int)
    returns (args: seq<string>)
    requires Stage(w) && Steady(s, open) && Fresh(s.a) && s.pending == []
    requires IsSign(dir) && MayStray(left, open, dir, word)
    ensures Parts(w, s, left, dir, word, args, now)
    decreases |word|
  {
    hide Stage, Agree, SteadyHere, SteadyThere;
    var on, kind := dir == '+', KindOf(word[0]);
    if IsSign(word[0]) {
      args := RunStrays(w, s, left, open, word[0], word[1..], now);
    } else if IsLocalList(kind) {
      args := ListStrays(w, s, left, open, dir, word, now);
    } else {
      var arg := if kind.LimitMode? then if on then ["5"] else [] else DullArgument(on, kind);
      DullIsWord(on, kind);
      var s' := Stepped(w, s, dir, word[0], arg, now);
      if kind.LimitMode? {
        LimitInStep(w, s, open, dir, word[0], now);
      } else {
        DullKeepsSteady(w, s, open, dir, word[0], now);
      }
      var more := RunStrays(w, s', LeftAfter(left, on, kind), OpenAfter(open, on, kind), dir, word[1..], now);
      args := arg + more;
      StepParts(w, s, left, dir, word, arg, more, now);
    }
  }

  // ----- the theorem -----

  function StageUser(id: UserID, nick: string): UserState {
    UserState(id, nick, "", "", "", "", true, "", 0, false, "", "")
  }

  function StageWorld(): WorldState {
    WorldState(Ascii, map[1 := StageUser(1, "n"), 2 := StageUser(2, "p")], map["n" := 1, "p" := 2], map[], 2)
  }

  function StageChan(): ChanState {
    ChanState("#", 0, Topic("", "", 0), "", 5, NO_MODES, MEMBERS,
              Lists(map["w" := 0], map["w" := 0, "z" := 0], map["w" := 0, "z" := 0], map["w" := 0, "z" := 0]), {})
  }

  lemma FoldsToItself(s: string)
    requires forall i :: 0 <= i < |s| ==> 'a' <= s[i] <= 'z' || IsDigit(s[i])
    ensures Fold(Ascii, s) == s
  {
  }

  lemma StageUsersValid()
    ensures StageWorld().UsersValid()
  {
    FoldsToItself("n");
    FoldsToItself("p");
  }

  lemma StageWorldIsSet()
    ensures Stage(StageWorld())
  {
    FoldsToItself("n");
    FoldsToItself("p");
    FoldsToItself("x");
    FoldsToItself("z");
    FoldsToItself("7");
    StageUsersValid();
    hide WorldState.UsersValid;
  }

  lemma StageChanIsSet()
    ensures Steady(Pair(StageChan(), StageChan(), '+', []), false) && Fresh(StageChan())
  {
  }

  lemma WordsAreParams(args: seq<string>)
    requires AllWords(args)
    ensures ParamsOk(args)
  {
  }

  /** For all agreeing replicas of a standard channel and all arguments that a line can carry, running a line on
      one node and its echo on the other keeps them in agreement, if and only if the word is replicable. */
  lemma ReplicableKeepsAgreement(word: string, n: nat)
    ensures KeepsAgreement(word, n) <==> Replicable(word, n)
  {
    if Replicable(word, n) {
      forall wa, a, wb, b, args, now: int, later: int | Replicas(wa, a, wb, b) && |args| <= n && ParamsOk(args)
        ensures AgreeAfter(wa, a, wb, b, word, args, now, later)
      {
        ReplicasAgreeFrom(wa, a, wb, b, n, false, '+', '+', word, args, now, later);
      }
    } else {
      StageWorldIsSet();
      StageChanIsSet();
      var w, ch := StageWorld(), StageChan();
      var args := RunStrays(w, Pair(ch, ch, '+', []), n, false, '+', word, 0);
      WordsAreParams(args);
      var o := LocalRun(w, ch, '+', word, args, 0);
      assert [] + o.params == o.params;
      assert Replicas(w, ch, w, ch) && !AgreeAfter(w, ch, w, ch, word, args, 0, 0);
    }
  }

  // ----- consequences -----

  /** It is enough that the echo is replicable, which it may be when the line is not. */
  lemma EchoKeepsAgreement(wa: WorldState, a: ChanState, wb: WorldState, b: ChanState, word: string,
                           args: seq<string>, now: int, later: int)
    requires Replicas(wa, a, wb, b)
    requires var o := LocalRun(wa, a, '+', word, args, now); Replicable(o.changes, |o.params|)
    ensures AgreeAfter(wa, a, wb, b, word, args, now, later)
  {
    var o := LocalRun(wa, a, '+', word, args, now);
    EchoIsCanonical(wa, a, word, args, now, now);
    ReplicasAgreeFrom(wa, a, wb, b, |o.params|, false, '+', '+', o.changes, o.params, now, later);
  }

  /** No e, I or q in a mode word. */
  predicate NoLocalLists(word: string) {
    forall i :: 0 <= i < |word| ==> !IsLocalList(KindOf(word[i]))
  }

  lemma {:induction false} NothingStrays(left: nat, open: bool, dir: char, word: string)
    requires NoLocalLists(word)
    ensures !MayStray(left, open, dir, word)
    decreases |word|
  {
    if word != "" {
      var on, kind := dir == '+', KindOf(word[0]);
      NothingStrays(LeftAfter(left, on, kind), OpenAfter(open, on, kind), Turn(dir, word[0]), word[1..]);
    }
  }

  /** In particular every line without e, I and q keeps agreement. */
  lemma ReplicasAgree(wa: WorldState, a: ChanState, wb: WorldState, b: ChanState, word: string,
                      args: seq<string>, now: int, later: int)
    requires Replicas(wa, a, wb, b) && NoLocalLists(word)
    ensures AgreeAfter(wa, a, wb, b, word, args, now, later)
  {
    NothingStrays(|args|, false, '+', word);
    ReplicasAgreeFrom(wa, a, wb, b, |args|, false, '+', '+', word, args, now, later);
  }

  /** A -k puts a stray key right. */
  lemma KeyIsPutRight(n: nat)
    ensures Replicable("ek-k", n)
  {
  }

  /** A -l puts a stray limit right after an earlier -l, and not otherwise. */
  lemma LimitIsPutRight(n: nat)
    ensures Replicable("-l+el-l", n)
  {
  }

  lemma LimitIsNotPutRight(n: nat)
    requires n >= 2
    ensures !Replicable("el-l", n) && !KeepsAgreement("el-l", n)
  {
    ReplicableKeepsAgreement("el-l", n);
  }

  function Operators(k: nat): string {
    if k == 0 then "" else "o" + Operators(k - 1)
  }

  lemma {:induction false} OperatorsUseUp(k: nat, rest: string, n: nat)
    ensures MayStray(n, false, '+', Operators(k) + rest) == MayStray(if k <= n then n - k else 0, false, '+', rest)
  {
    if k == 0 {
      assert Operators(k) + rest == rest;
    } else {
      var word := Operators(k) + rest;
      assert word[0] == 'o' && word[1..] == Operators(k - 1) + rest;
      if n > 0 {
        OperatorsUseUp(k - 1, rest, n - 1);
      }
    }
  }

  lemma ShiftedBan(n: nat)
    ensures MayStray(n, false, '+', "eb") <==> n >= 2
  {
  }

  /** Letters behind the last argument do no harm: with thirteen arguments at most, which is what a client's line
      has room for after the channel and the mode word, twelve o's in front of "eb" make it replicate. */
  lemma ArgumentsRunOut(k: nat, n: nat)
    ensures KeepsAgreement(Operators(k) + "eb", n) <==> n < k + 2
  {
    ReplicableKeepsAgreement(Operators(k) + "eb", n);
    OperatorsUseUp(k, "eb", n);
    ShiftedBan(if k <= n then n - k else 0);
  }

  /** With an e in front the argument of a following b goes astray: on equal replicas the line
      "+eb x y" bans y on the one and x on the other. */
  lemma ListModesShiftArguments(w: WorldState, name: string, now: Int64)
    ensures var ch := NewChan(name, now);
            var o := LocalRun(w, ch, '+', "eb", ["x", "y"], now);
            var r := RemoteRun(w, ch, '+', o.changes, o.params, now);
            && o.ch.lists.bans.Keys == {"y"} && r.lists.bans.Keys == {"x"}
  {
    LocalShift(w, NewChan(name, now), now);
    RemoteShift(w, NewChan(name, now), now);
  }

  lemma LocalShift(w: WorldState, ch: ChanState, now: int)
    requires "x" !in ch.lists.exceptions && "y" !in ch.lists.bans
    ensures var o := LocalRun(w, ch, '+', "eb", ["x", "y"], now);
            && o.ch == ChangeMask(ChangeMask(ch, true, Exception, "x", now), true, Ban, "y", now)
            && o.changes == "+e+b" && o.params == ["x", "y"]
  {
    var ch1 := ChangeMask(ch, true, Exception, "x", now);
    var ch2 := ChangeMask(ch1, true, Ban, "y", now);
    assert LocalEffect(w, ch, true, KindOf('e'), ["x", "y"], now) == Done(ch1, 1, ["x"]);
    assert LocalEffect(w, ch1, true, KindOf('b'), ["y"], now) == Done(ch2, 1, ["y"]);
    assert "eb"[1..] == "b" && "b"[1..] == "" && ["x", "y"][1..] == ["y"] && ["y"][1..] == [];
    assert LocalRun(w, ch1, '+', "b", ["y"], now) == Outcome(ch2, "+b", ["y"], "");
  }

  lemma RemoteShift(w: WorldState, ch: ChanState, now: int)
    requires "x" !in ch.lists.bans
    ensures RemoteRun(w, ch, '+', "+e+b", ["x", "y"], now) == ChangeMask(ch, true, Ban, "x", now)
  {
    var args := ["x", "y"];
    assert args[0..] == args && args[1..] == ["y"];
    assert "+e+b"[1..] == "e+b" && "e+b"[1..] == "+b" && "+b"[1..] == "b" && "b"[1..] == "";
    var ch' := ChangeMask(ch, true, Ban, "x", now);
    assert RemoteRun(w, ch', '+', "", ["y"], now) == ch';
    assert RemoteRun(w, ch, '+', "b", args, now) == ch';
    assert RemoteRun(w, ch, '+', "+b", args, now) == ch';
    assert RemoteRun(w, ch, '+', "e+b", args, now) == ch';
  }
}
