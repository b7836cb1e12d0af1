/** The echo of a MODE line on the wire. It is sent over the links as one line, with a sign in front of every
    letter, and the writer closes the link when the line is too long. */
module ModeWire {
  import opened Prelude
  import opened Numbers
  import opened Message
  import opened State
  import opened ModeSpec
  import opened ModeProofs
  import opened ModeReplicas
  import opened FedSpec
  import opened WireSpec
  import opened WireRoundTrip
  import opened BurstShape
  import opened BurstWire

  /** The line that is broadcast and forwarded after a mode change by the user with that hostmask. */
  function EchoLine(hostmask: string, ch: ChanState, o: Outcome): Message {
    Plain(hostmask, "MODE", [ch.name, o.changes] + o.params)
  }

  ghost predicate NicksAreWords(w: WorldState) {
    w.Valid() && forall id :: id in w.users ==> MiddleOk(w.users[id].nick)
  }

  // ----- the shape of an echo -----

  /** An echo of `o`, from a mode word of `n` letters and signs and the arguments `args`. */
  ghost predicate Echoes(o: Outcome, n: nat, args: seq<string>) {
    && (o.changes == "" ==> o.params == []) && (o.changes != "" ==> IsSign(o.changes[0])) && Unspaced(o.changes)
    && ParamsOk(o.params) && |o.params| <= |args| && Size(o.params) <= Size(args) && |o.changes| <= 2 * n
  }

  lemma TailIsOk(args: seq<string>)
    requires args != [] && ParamsOk(args)
    ensures ParamsOk(args[1..]) && TrailingOk(args[0]) && (|args| > 1 ==> MiddleOk(args[0]))
  {
    assert forall i :: 0 <= i < |args[1..]| ==> args[1..][i] == args[i + 1];
  }

  lemma ConsIsOk(p: string, rest: seq<string>)
    requires ParamsOk(rest) && TrailingOk(p) && (rest != [] ==> MiddleOk(p))
    ensures ParamsOk([p] + rest) && Size([p] + rest) == 1 + |p| + Size(rest)
  {
    assert ([p] + rest)[1..] == rest;
  }

  /** What one letter echoes: its own argument, or the nick that the argument stands for. */
  lemma EffectEchoes(w: WorldState, ch: ChanState, on: bool, kind: ModeKind, args: seq<string>, now: int)
    requires NicksAreWords(w)
    ensures var e := LocalEffect(w, ch, on, kind, args, now);
            && (e.param != [] ==>
                  && |e.param| == 1 && e.used == 1 && |e.param[0]| == |args[0]| && e.echoed
                  && (e.param[0] == args[0] || MiddleOk(e.param[0])))
            && (e.echoed ==> !kind.NoMode?)
  {
    if kind.FlagMode? && args != [] && w.FindByNick(args[0]).Some? {
      FoundByOwnNick(w, args[0]);
      assert |w.Key(args[0])| == |args[0]|;
    }
  }

  lemma LettersAreClean(dir: char, mc: char, rest: string)
    requires IsSign(dir) && !KindOf(mc).NoMode? && Unspaced(rest)
    ensures Unspaced([dir, mc] + rest)
  {
  }

  lemma PrependEchoes(e: Effect, dir: char, mc: char, rest: Outcome, n: nat, args: seq<string>)
    requires e.used <= |args| && e.used <= 1 && ParamsOk(args) && IsSign(dir) && Echoes(rest, n, args[e.used..])
    requires e.echoed ==> !KindOf(mc).NoMode?
    requires e.param != [] ==>
               && |e.param| == 1 && e.used == 1 && |e.param[0]| == |args[0]| && e.echoed
               && (e.param[0] == args[0] || MiddleOk(e.param[0]))
    ensures Echoes(Prepend(e, dir, mc, rest), n + 1, args)
  {
    if e.used == 1 {
      TailIsOk(args);
    }
    if e.param != [] {
      assert e.param == [e.param[0]];
      ConsIsOk(e.param[0], rest.params);
    } else {
      assert e.param + rest.params == rest.params;
    }
    if e.echoed {
      LettersAreClean(dir, mc, rest.changes);
    }
    assert e.used == 0 ==> args[e.used..] == args;
  }

  lemma {:induction false} RunEchoes(w: WorldState, ch: ChanState, dir: char, word: string, args: seq<string>, now: int)
    requires NicksAreWords(w) && ParamsOk(args) && IsSign(dir)
    ensures Echoes(LocalRun(w, ch, dir, word, args, now), |word|, args)
    decreases |word|
  {
    hide NicksAreWords, Echoes;
    if word == "" {
      NothingEchoes(ch, args);
    } else if IsSign(word[0]) {
      RunEchoes(w, ch, word[0], word[1..], args, now);
      LongerEchoes(LocalRun(w, ch, word[0], word[1..], args, now), |word| - 1, args);
    } else {
      var on, kind := dir == '+', KindOf(word[0]);
      var e := LocalEffect(w, ch, on, kind, args, now);
      UsesItsArgument(w, ch, on, kind, args, now);
      EffectEchoes(w, ch, on, kind, args, now);
      RestIsOk(args, e.used);
      RunEchoes(w, e.ch, dir, word[1..], args[e.used..], now);
      PrependEchoes(e, dir, word[0], LocalRun(w, e.ch, dir, word[1..], args[e.used..], now), |word| - 1, args);
    }
  }

  lemma NothingEchoes(ch: ChanState, args: seq<string>)
    ensures Echoes(Outcome(ch, "", [], ""), 0, args)
  {
  }

  lemma LongerEchoes(o: Outcome, n: nat, args: seq<string>)
    requires Echoes(o, n, args)
    ensures Echoes(o, n + 1, args)
  {
  }

  lemma RestIsOk(args: seq<string>, used: nat)
    requires ParamsOk(args) && used <= 1 && used <= |args|
    ensures ParamsOk(args[used..])
  {
    if used == 1 {
      TailIsOk(args);
    } else {
      assert args[0..] == args;
    }
  }

  // ----- when an echo encodes -----

  predicate EchoFits(hostmask: string, ch: ChanState, o: Outcome) {
    |hostmask| + |ch.name| + |o.changes| + Size(o.params) <= 501
  }

  lemma EchoParamsFit(ch: ChanState, o: Outcome, n: nat, args: seq<string>)
    requires Echoes(o, n, args) && MiddleOk(ch.name)
    ensures var params := [ch.name, o.changes] + o.params;
            Fits(params) && Size(params) == 2 + |ch.name| + |o.changes| + Size(o.params)
  {
    var params := [ch.name, o.changes] + o.params;
    ConsIsOk(o.changes, o.params);
    ConsIsOk(ch.name, [o.changes] + o.params);
    assert params == [ch.name] + ([o.changes] + o.params);
    FitsIsParamsOk(params);
  }

  /** The echo of a line that a client sent encodes if and only if it is not too long. It has at most twice as
      many characters as the mode word, and no longer arguments. */
  lemma EchoEncodes(hostmask: string, w: WorldState, ch: ChanState, word: string, args: seq<string>, now: int)
    requires NicksAreWords(w) && hostmask != "" && MiddleOk(ch.name) && ParamsOk(args) && |args| <= MAX_PARAMS - 2
    ensures var o := LocalRun(w, ch, '+', word, args, now);
            && (Encodes(EchoLine(hostmask, ch, o)) <==> EchoFits(hostmask, ch, o))
            && |o.changes| <= 2 * |word| && Size(o.params) <= Size(args)
  {
    var o := LocalRun(w, ch, '+', word, args, now);
    RunEchoes(w, ch, '+', word, args, now);
    EchoParamsFit(ch, o, |word|, args);
    Commands();
    EncodesExactly(hostmask, "MODE", [ch.name, o.changes] + o.params);
  }

  // ----- the echo crosses the link -----

  lemma EchoReadsBack(hostmask: string, ch: ChanState, o: Outcome)
    requires CleanPrefix(hostmask) && Encodes(EchoLine(hostmask, ch, o))
    ensures var written := Write([EchoLine(hostmask, ch, o)]);
            !written.closed && Read(written.stream) == [EchoLine(hostmask, ch, o)]
  {
    var m := EchoLine(hostmask, ch, o);
    UpperCommands();
    assert Sound(m);
    assert All([m], Encodes) && All([m], Sound);
    ReadsBack([m]);
    ClosedExactly([m]);
  }

  /** The peer runs the echo on its copy. */
  lemma EchoHandled(hostmask: string, name: string, o: Outcome, ch: ChanState, w: WorldState, local: string,
                    peer: string, later: Int64)
    requires IsStandard(ch.name) && w.FindChannel(ch.name).Some?
    ensures var b := w.FindChannel(ch.name).value;
            var w' := Handle(w, local, peer, EchoLine(hostmask, ch, o), later).w;
            && w'.FindChannel(ch.name) == Some(RemoteRun(w, b, '+', o.changes, o.params, later))
            && w'.users == w.users && w'.nicks == w.nicks && w'.mapping == w.mapping
  {
    var m := EchoLine(hostmask, ch, o);
    assert m.params[2..] == o.params && m.params[1] == o.changes && m.params[0] == ch.name;
  }

  lemma SameNicksAgree(wa: WorldState, a: ChanState, wb: WorldState, wb': WorldState, b: ChanState)
    requires Agree(wa, a, wb, b) && wb'.users == wb.users && wb'.nicks == wb.nicks && wb'.mapping == wb.mapping
    ensures Agree(wa, a, wb', b)
  {
    forall nick: string ensures MemberView(wa, a, nick) == MemberView(wb', b, nick) {
      assert MemberView(wa, a, nick) == MemberView(wb, b, nick);
    }
  }

  /** A replicable line whose echo fits: what the peer reads from the bytes of the link makes its copy of the
      channel agree. An echo that does not fit closes the link instead, and nothing is written. */
  lemma EchoArrives(hostmask: string, wa: WorldState, a: ChanState, wb: WorldState, word: string, args: seq<string>,
                    local: string, peer: string, now: int, later: Int64)
    requires wb.FindChannel(a.name).Some? && Replicas(wa, a, wb, wb.FindChannel(a.name).value)
    requires NicksAreWords(wa) && hostmask != "" && CleanPrefix(hostmask) && MiddleOk(a.name)
    requires ParamsOk(args) && |args| <= MAX_PARAMS - 2 && Replicable(word, |args|)
    ensures var o := LocalRun(wa, a, '+', word, args, now);
            var written := Write([EchoLine(hostmask, a, o)]);
            if EchoFits(hostmask, a, o) then
              && !written.closed && |Read(written.stream)| == 1
              && var wb' := Handle(wb, local, peer, Read(written.stream)[0], later).w;
                 wb'.FindChannel(a.name).Some? && Agree(wa, o.ch, wb', wb'.FindChannel(a.name).value)
            else written == Written("", true)
  {
    hide Agree, Encodes, Handle, Write, Read;
    var o, b := LocalRun(wa, a, '+', word, args, now), wb.FindChannel(a.name).value;
    EchoEncodes(hostmask, wa, a, word, args, now);
    if EchoFits(hostmask, a, o) {
      EchoReadsBack(hostmask, a, o);
      EchoHandled(hostmask, a.name, o, a, wb, local, peer, later);
      ReplicasAgreeFrom(wa, a, wb, b, |args|, false, '+', '+', word, args, now, later);
      SameNicksAgree(wa, o.ch, wb, Handle(wb, local, peer, EchoLine(hostmask, a, o), later).w,
                     RemoteRun(wb, b, '+', o.changes, o.params, later));
    } else {
      TooLongCloses(EchoLine(hostmask, a, o));
    }
  }

  lemma TooLongCloses(m: Message)
    requires !Encodes(m)
    ensures Write([m]) == Written("", true)
  {
  }

  // ----- an echo that outgrows its line -----

  function Blocks(k: nat): string {
    if k == 0 then "" else "+im-im" + Blocks(k - 1)
  }

  predicate Untouched(ch: ChanState) {
    !ch.modes.inviteOnly && !ch.modes.moderated
  }

  /** A letter that switches a mode is echoed with its sign. */
  lemma ToggleEchoes(w: WorldState, ch: ChanState, on: bool, mc: char, mode: BoolMode, rest: string, now: int)
    requires KindOf(mc) == BoolMode(mode) && mode != ServerReop && ch.modes.Get(mode) != on && !IsSign(mc)
    ensures var dir := if on then '+' else '-';
            var o := LocalRun(w, ch, dir, [mc] + rest, [], now);
            var o' := LocalRun(w, ch.(modes := ch.modes.Set(mode, on)), dir, rest, [], now);
            |o.changes| == 2 + |o'.changes| && o.params == o'.params && o.ch == o'.ch
  {
    assert ([mc] + rest)[1..] == rest;
  }

  function Switched(ch: ChanState, on: bool): ChanState {
    ch.(modes := ch.modes.(inviteOnly := on, moderated := on))
  }

  lemma TwoToggles(w: WorldState, ch: ChanState, on: bool, rest: string, now: int)
    requires ch.modes.inviteOnly == ch.modes.moderated == !on
    ensures var dir := if on then '+' else '-';
            var o, o' := LocalRun(w, ch, dir, "im" + rest, [], now), LocalRun(w, Switched(ch, on), dir, rest, [], now);
            |o.changes| == 4 + |o'.changes| && o.params == o'.params && o.ch == o'.ch
  {
    hide LocalRun;
    assert "im" + rest == ['i'] + (['m'] + rest);
    ToggleEchoes(w, ch, on, 'i', InviteOnly, ['m'] + rest, now);
    ToggleEchoes(w, ch.(modes := ch.modes.Set(InviteOnly, on)), on, 'm', Moderated, rest, now);
  }

  lemma SignFirst(w: WorldState, ch: ChanState, dir: char, sign: char, rest: string, now: int)
    requires IsSign(sign)
    ensures LocalRun(w, ch, dir, [sign] + rest, [], now) == LocalRun(w, ch, sign, rest, [], now)
  {
    assert ([sign] + rest)[1..] == rest;
  }

  /** Six characters of a line become eight of its echo. */
  lemma {:induction false} BlocksGrow(w: WorldState, ch: ChanState, dir: char, k: nat, now: int)
    requires Untouched(ch)
    ensures |Blocks(k)| == 6 * k
    ensures var o := LocalRun(w, ch, dir, Blocks(k), [], now);
            |o.changes| == 8 * k && o.params == [] && o.ch == ch
    decreases k
  {
    if k > 0 {
      var rest := Blocks(k - 1);
      var on := Switched(ch, true);
      assert Blocks(k) == ['+'] + ("im" + (['-'] + ("im" + rest)));
      SignFirst(w, ch, dir, '+', "im" + (['-'] + ("im" + rest)), now);
      TwoToggles(w, ch, true, ['-'] + ("im" + rest), now);
      SignFirst(w, on, '+', '-', "im" + rest, now);
      TwoToggles(w, on, false, rest, now);
      assert Switched(on, false) == ch;
      BlocksGrow(w, ch, '-', k - 1, now);
    }
  }

  lemma {:induction false} BlocksAreWord(k: nat)
    ensures Unspaced(Blocks(k)) && (k > 0 ==> MiddleOk(Blocks(k)))
  {
    if k > 0 {
      BlocksAreWord(k - 1);
      assert Unspaced("+im-im");
      UnspacedBoth("+im-im", Blocks(k - 1));
    }
  }

  /** "MODE #x +im-im+im-im..." with 63 times "+im-im" is a line that a client can send. On a new channel its echo
      does not encode, whoever sends it, so the link is closed. */
  lemma LongEchoCutsTheLink(w: WorldState, hostmask: string, now: Int64)
    requires NicksAreWords(w) && hostmask != ""
    ensures var line, ch := Plain("", "MODE", ["#x", Blocks(63)]), NewChan("#x", now);
            && EncodeIn(line, []).Ok? && ParseLine(EncodeIn(line, []).value) == Ok(line)
            && Write([EchoLine(hostmask, ch, LocalRun(w, ch, '+', Blocks(63), [], now))]) == Written("", true)
  {
    hide Blocks, NicksAreWords;
    var ch := NewChan("#x", now);
    BlocksGrow(w, ch, '+', 63, now);
    EchoEncodes(hostmask, w, ch, Blocks(63), [], now);
    TooLongCloses(EchoLine(hostmask, ch, LocalRun(w, ch, '+', Blocks(63), [], now)));
    BlocksAreWord(63);
    ModeLineEncodes(Blocks(63));
  }

  lemma ModeLineEncodes(word: string)
    requires MiddleOk(word) && |word| <= 500
    ensures var line := Plain("", "MODE", ["#x", word]);
            EncodeIn(line, []).Ok? && ParseLine(EncodeIn(line, []).value) == Ok(line)
  {
    var line := Plain("", "MODE", ["#x", word]);
    Commands();
    UpperCommands();
    assert line.params[1..] == [word];
    assert ParamText(line.params) == "#x" + (" " + (":" + word));
    RoundTrip(line, []);
  }
}
