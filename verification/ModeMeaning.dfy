/** What an operator's MODE line does to the channel, letter by letter, as the protocol names the letters. */
module ModeMeaning {
  import opened Prelude
  import opened Numbers
  import opened CaseMap
  import opened State
  import opened ModeSpec
  import opened Clients

  /** An operator of a channel that has modes. */
  predicate MaySetModes(w: WorldState, id: UserID, name: string) {
    && w.FindChannel(name).Some?
    && var ch := w.FindChannel(name).value; !IsModeless(ch.name) && IsMemberOp(ch, id)
  }

  function SignOf(on: bool): char {
    if on then '+' else '-'
  }

  /** A MODE command with one letter and its arguments. */
  function Line(id: UserID, name: string, on: bool, letter: char, args: seq<string>, now: Int64): Command {
    Mode(id, name, [[SignOf(on), letter]] + args, now)
  }

  /** The world in which only the channel found under that name has changed, to `ch`. */
  function Changed(w: WorldState, name: string, ch: ChanState): WorldState {
    w.(chans := w.chans[w.Key(name) := ch])
  }

  lemma OneLetterRun(w: WorldState, ch: ChanState, on: bool, letter: char, args: seq<string>, now: int)
    requires !IsSign(letter)
    ensures var e, o := LocalEffect(w, ch, on, KindOf(letter), args, now),
              LocalRun(w, ch, '+', [SignOf(on), letter], args, now);
            o.ch == e.ch && o.unknown == Unknown(e, letter)
  {
    var word := [SignOf(on), letter];
    assert word[1..] == [letter] && [letter][1..] == "";
    var e := LocalEffect(w, ch, on, KindOf(letter), args, now);
    assert LocalRun(w, e.ch, SignOf(on), "", args[e.used..], now) == Outcome(e.ch, "", [], "");
  }

  lemma LineRuns(w: WorldState, id: UserID, name: string, on: bool, letter: char, args: seq<string>, now: Int64)
    requires MaySetModes(w, id, name) && !IsSign(letter)
    ensures Exec(w, Line(id, name, on, letter, args, now))
         == Changed(w, name, LocalEffect(w, w.FindChannel(name).value, on, KindOf(letter), args, now).ch)
  {
    var word := [SignOf(on), letter];
    assert ([word] + args)[1..] == args;
    OneLetterRun(w, w.FindChannel(name).value, on, letter, args, now);
  }

  // ----- modes that are on or off -----

  /** The modes after a letter that names one of them. */
  function Switched(m: Modes, letter: char, on: bool): Modes {
    if letter == 'i' then m.(inviteOnly := on)
    else if letter == 'm' then m.(moderated := on)
    else if letter == 'n' then m.(noExternal := on)
    else if letter == 'p' then m.(private := on)
    else if letter == 's' then m.(secret := on)
    else if letter == 't' then m.(topicLocked := on)
    else if letter == 'a' then m.(anonymous := on)
    else if letter == 'r' then m.(serverReop := on)
    else m
  }

  const SWITCHES := {'i', 'm', 'n', 'p', 's', 't', 'a', 'r'}

  /** Each of the letters switches its own mode and no other. An r works on safe channels only. */
  lemma SwitchLetter(w: WorldState, id: UserID, name: string, on: bool, letter: char, now: Int64)
    requires MaySetModes(w, id, name) && letter in SWITCHES
    ensures var ch := w.FindChannel(name).value;
            Exec(w, Line(id, name, on, letter, [], now))
              == Changed(w, name, if letter == 'r' && !IsSafe(ch.name) then ch
                                  else ch.(modes := Switched(ch.modes, letter, on)))
  {
    LineRuns(w, id, name, on, letter, [], now);
    SwitchEffect(w, w.FindChannel(name).value, on, letter, now);
  }

  lemma SwitchIsSet(m: Modes, letter: char, on: bool)
    requires letter in SWITCHES
    ensures KindOf(letter).BoolMode? && Switched(m, letter, on) == m.Set(KindOf(letter).mode, on)
    ensures KindOf(letter).mode == ServerReop <==> letter == 'r'
  {
  }

  lemma SwitchEffect(w: WorldState, ch: ChanState, on: bool, letter: char, now: int)
    requires letter in SWITCHES
    ensures LocalEffect(w, ch, on, KindOf(letter), [], now).ch
         == if letter == 'r' && !IsSafe(ch.name) then ch else ch.(modes := Switched(ch.modes, letter, on))
  {
    hide KindOf, Switched;
    SwitchIsSet(ch.modes, letter, on);
    AlreadySwitched(ch.modes, KindOf(letter).mode);
    assert ch.(modes := ch.modes) == ch;
  }

  lemma AlreadySwitched(m: Modes, mode: BoolMode)
    ensures m.Set(mode, m.Get(mode)) == m
  {
  }

  // ----- key and limit -----

  lemma KeyLetter(w: WorldState, id: UserID, name: string, on: bool, key: string, now: Int64)
    requires MaySetModes(w, id, name) && key != ""
    ensures var ch := w.FindChannel(name).value;
            && Exec(w, Line(id, name, true, 'k', [key], now)) == Changed(w, name, ch.(key := key))
            && Exec(w, Line(id, name, false, 'k', [], now)) == Changed(w, name, ch.(key := ""))
  {
    LineRuns(w, id, name, true, 'k', [key], now);
    LineRuns(w, id, name, false, 'k', [], now);
    assert KindOf('k').KeyMode?;
  }

  /** A limit is set to any number that is not negative, and is left alone by anything else. */
  lemma LimitLetter(w: WorldState, id: UserID, name: string, limit: Int64, word: string, now: Int64)
    requires MaySetModes(w, id, name) && ParseInt(word).None?
    ensures var ch := w.FindChannel(name).value;
            && Exec(w, Line(id, name, true, 'l', [FormatInt(limit)], now))
                 == Changed(w, name, if limit < 0 then ch else ch.(limit := limit))
            && Exec(w, Line(id, name, true, 'l', [word], now)) == Changed(w, name, ch)
            && Exec(w, Line(id, name, false, 'l', [], now)) == Changed(w, name, ch.(limit := 0))
  {
    ParseFormat(limit);
    LineRuns(w, id, name, true, 'l', [FormatInt(limit)], now);
    LineRuns(w, id, name, true, 'l', [word], now);
    LineRuns(w, id, name, false, 'l', [], now);
    assert KindOf('l').LimitMode?;
  }

  // ----- members -----

  /** An o gives or takes the operator flag and a v the voice of the member with that nick; the line does nothing
      when nobody of that nick is a member. */
  lemma MemberLetter(w: WorldState, id: UserID, name: string, on: bool, letter: char, nick: string, now: Int64)
    requires MaySetModes(w, id, name) && letter in {'o', 'v'}
    ensures var ch, target := w.FindChannel(name).value, w.FindByNick(nick);
            Exec(w, Line(id, name, on, letter, [nick], now))
              == Changed(w, name,
                         if target.None? || target.value.id !in ch.members then ch
                         else
                           var m := ch.members[target.value.id];
                           ch.(members := ch.members[target.value.id := if letter == 'o' then m.(op := on)
                                                                        else m.(voice := on)]))
  {
    LineRuns(w, id, name, on, letter, [nick], now);
    assert letter == 'o' ==> KindOf(letter) == FlagMode(Op);
    assert letter == 'v' ==> KindOf(letter) == FlagMode(Voice);
  }

  // ----- lists -----

  /** The mask is in, or out, and every other mask is as it was. A mask that was in keeps its time. */
  predicate OneMask(before: Masks, after: Masks, on: bool, mask: string, now: int) {
    after == if on then before[mask := if mask in before then before[mask] else now] else before - {mask}
  }

  /** A b changes the bans, an e the exceptions, an I the invitation exceptions and a q the quiets; the other
      three lists and everything else stay. */
  lemma ListLetter(w: WorldState, id: UserID, name: string, on: bool, letter: char, mask: string, now: Int64)
    requires MaySetModes(w, id, name) && letter in {'b', 'e', 'I', 'q'} && mask != ""
    ensures var ch, w' := w.FindChannel(name).value, Exec(w, Line(id, name, on, letter, [mask], now));
            && w'.FindChannel(name).Some?
            && var l, l' := ch.lists, w'.FindChannel(name).value.lists;
               && w' == Changed(w, name, ch.(lists := l'))
               && (if letter == 'b' then OneMask(l.bans, l'.bans, on, mask, now) else l'.bans == l.bans)
               && (if letter == 'e' then OneMask(l.exceptions, l'.exceptions, on, mask, now)
                   else l'.exceptions == l.exceptions)
               && (if letter == 'I' then OneMask(l.invexes, l'.invexes, on, mask, now) else l'.invexes == l.invexes)
               && (if letter == 'q' then OneMask(l.quiets, l'.quiets, on, mask, now) else l'.quiets == l.quiets)
  {
    LineRuns(w, id, name, on, letter, [mask], now);
    ListChanged(w, w.FindChannel(name).value, on, letter, mask, now);
  }

  lemma ListChanged(w: WorldState, ch: ChanState, on: bool, letter: char, mask: string, now: int)
    requires letter in {'b', 'e', 'I', 'q'} && mask != ""
    ensures var l, after := ch.lists, LocalEffect(w, ch, on, KindOf(letter), [mask], now).ch;
            && after == ch.(lists := after.lists)
            && (if letter == 'b' then OneMask(l.bans, after.lists.bans, on, mask, now) else after.lists.bans == l.bans)
            && (if letter == 'e' then OneMask(l.exceptions, after.lists.exceptions, on, mask, now)
                else after.lists.exceptions == l.exceptions)
            && (if letter == 'I' then OneMask(l.invexes, after.lists.invexes, on, mask, now)
                else after.lists.invexes == l.invexes)
            && (if letter == 'q' then OneMask(l.quiets, after.lists.quiets, on, mask, now)
                else after.lists.quiets == l.quiets)
  {
  }

  // ----- everything else -----

  const LETTERS := SWITCHES + {'k', 'l', 'o', 'v', 'b', 'e', 'I', 'q'}

  /** Any other letter changes nothing. */
  lemma OtherLetter(w: WorldState, id: UserID, name: string, on: bool, letter: char, args: seq<string>, now: Int64)
    requires MaySetModes(w, id, name) && letter !in LETTERS && !IsSign(letter)
    ensures Exec(w, Line(id, name, on, letter, args, now)) == Changed(w, name, w.FindChannel(name).value)
  {
    LineRuns(w, id, name, on, letter, args, now);
    assert KindOf(letter).NoMode?;
  }

  // ----- what is echoed -----

  /** A letter that finds nothing to change is not echoed. One that changes something is echoed with its sign, and
      an argument only as far as it took one: the key, the limit or the mask as given, the nick as the member
      writes it. Operator and voice changes are echoed even when the member had the flag, or had it not. */
  lemma EchoTellsChange(w: WorldState, ch: ChanState, on: bool, letter: char, arg: string, now: int)
    requires !IsSign(letter)
    ensures var o := LocalRun(w, ch, '+', [SignOf(on), letter], [arg], now);
            var member := w.FindByNick(arg).Some? && w.FindByNick(arg).value.id in ch.members;
            && (o.changes == "" || o.changes == [SignOf(on), letter])
            && o.unknown == (if letter !in LETTERS || (letter == 'r' && !IsSafe(ch.name)) then [letter] else "")
            && (o.changes == "" <==> if letter in {'o', 'v'} then !member else o.ch == ch)
            && o.params == (if o.changes == "" then []
                            else if letter in {'o', 'v'} then [w.FindByNick(arg).value.nick]
                            else if letter in {'b', 'e', 'I', 'q'} || (on && letter in {'k', 'l'}) then [arg]
                            else [])
  {
    var word := [SignOf(on), letter];
    assert word[1..] == [letter] && [letter][1..] == "";
    var e := LocalEffect(w, ch, on, KindOf(letter), [arg], now);
    assert LocalRun(w, e.ch, SignOf(on), "", [arg][e.used..], now) == Outcome(e.ch, "", [], "");
    EffectTellsChange(w, ch, on, letter, arg, now);
    UnknownLetters(w, ch, on, letter, [arg], now);
    assert [SignOf(on), letter] + "" == [SignOf(on), letter];
    assert e.param + [] == e.param;
  }

  lemma UnknownLetters(w: WorldState, ch: ChanState, on: bool, letter: char, args: seq<string>, now: int)
    requires !IsSign(letter)
    ensures LocalEffect(w, ch, on, KindOf(letter), args, now).unknown
       <==> letter !in LETTERS || (letter == 'r' && !IsSafe(ch.name))
  {
  }

  lemma EffectTellsChange(w: WorldState, ch: ChanState, on: bool, letter: char, arg: string, now: int)
    ensures var e := LocalEffect(w, ch, on, KindOf(letter), [arg], now);
            var member := w.FindByNick(arg).Some? && w.FindByNick(arg).value.id in ch.members;
            && (e.echoed <==> if letter in {'o', 'v'} then member else e.ch != ch)
            && e.param == (if !e.echoed then []
                           else if letter in {'o', 'v'} then [w.FindByNick(arg).value.nick]
                           else if letter in {'b', 'e', 'I', 'q'} || (on && letter in {'k', 'l'}) then [arg]
                           else [])
  {
    hide LocalEffect;
    KindTellsChange(w, ch, on, KindOf(letter), arg, now);
    KindsOf(letter);
  }

  lemma KindsOf(letter: char)
    ensures letter in {'o', 'v'} <==> KindOf(letter).FlagMode?
    ensures letter in {'b', 'e', 'I', 'q'} <==> KindOf(letter).ListMode?
    ensures letter in {'k', 'l'} <==> KindOf(letter).KeyMode? || KindOf(letter).LimitMode?
  {
  }

  lemma KindTellsChange(w: WorldState, ch: ChanState, on: bool, kind: ModeKind, arg: string, now: int)
    ensures var e := LocalEffect(w, ch, on, kind, [arg], now);
            var member := w.FindByNick(arg).Some? && w.FindByNick(arg).value.id in ch.members;
            && (e.echoed <==> if kind.FlagMode? then member else e.ch != ch)
            && e.param == (if !e.echoed then []
                           else if kind.FlagMode? then [w.FindByNick(arg).value.nick]
                           else if kind.ListMode? || (on && (kind.KeyMode? || kind.LimitMode?)) then [arg]
                           else [])
  {
    match kind
    case BoolMode(mode) => SetChanges(ch.modes, mode, on);
    case _ =>
  }

  lemma SetChanges(m: Modes, mode: BoolMode, on: bool)
    ensures m.Get(mode) != on ==> m.Set(mode, on) != m
  {
  }
}
