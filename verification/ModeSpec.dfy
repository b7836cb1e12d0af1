/** What a channel MODE line does, as functions on channel values.

    There are two interpreters: the one for lines typed by local operators, which also prints an echo
    of the changes it made, and the one for lines that arrive over a federation link. */
module ModeSpec {
  import opened Numbers
  import opened State

  /** What one mode character does: the channel afterwards, how many arguments it took, the argument
      printed after it when it is echoed, and whether it is an unknown mode. */
  datatype Effect = Effect(ch: ChanState, used: nat, echoed: bool, param: seq<string>, unknown: bool)

  function Skip(ch: ChanState, used: nat): Effect {
    Effect(ch, used, false, [], false)
  }

  function Done(ch: ChanState, used: nat, param: seq<string>): Effect {
    Effect(ch, used, true, param, false)
  }

  /** The meaning of a mode character. */
  datatype ModeKind = BoolMode(mode: BoolMode) | KeyMode | LimitMode | FlagMode(flag: Flag) | ListMode(masks: MaskKind)
    | NoMode

  function KindOf(mc: char): ModeKind {
    match mc
    case 'i' => BoolMode(InviteOnly)
    case 'm' => BoolMode(Moderated)
    case 'n' => BoolMode(NoExternal)
    case 'p' => BoolMode(Private)
    case 's' => BoolMode(Secret)
    case 't' => BoolMode(TopicLocked)
    case 'a' => BoolMode(Anonymous)
    case 'r' => BoolMode(ServerReop)
    case 'k' => KeyMode
    case 'l' => LimitMode
    case 'o' => FlagMode(Op)
    case 'v' => FlagMode(Voice)
    case 'b' => ListMode(Ban)
    case 'e' => ListMode(Exception)
    case 'I' => ListMode(Invex)
    case 'q' => ListMode(Quiet)
    case _ => NoMode
  }

  /** The list modes that only the local interpreter knows: e, I and q. */
  predicate IsLocalList(kind: ModeKind) {
    kind.ListMode? && kind.masks != Ban
  }

  function ChangeMask(ch: ChanState, on: bool, kind: MaskKind, mask: string, now: int): ChanState {
    var masks := ch.lists.Get(kind);
    ch.(lists := ch.lists.Put(kind, if on then AddMask(masks, mask, now) else masks - {mask}))
  }

  function ChangeFlag(ch: ChanState, on: bool, flag: Flag, id: UserID): ChanState {
    if on then ch.AddMembership(id, flag) else ch.RemoveMembership(id, flag)
  }

  // ----- the local interpreter -----

  function Toggle(ch: ChanState, on: bool, mode: BoolMode): Effect {
    if ch.modes.Get(mode) == on then Skip(ch, 0) else Done(ch.(modes := ch.modes.Set(mode, on)), 0, [])
  }

  function LocalKey(ch: ChanState, on: bool, args: seq<string>): Effect {
    if on then
      if args == [] then Skip(ch, 0)
      else if args[0] == "" || args[0] == ch.key then Skip(ch, 1)
      else Done(ch.(key := args[0]), 1, [args[0]])
    else if ch.key == "" then Skip(ch, 0)
    else Done(ch.(key := ""), 0, [])
  }

  function LocalLimit(ch: ChanState, on: bool, args: seq<string>): Effect {
    if on then
      if args == [] then Skip(ch, 0)
      else
        var n := ParseInt(args[0]);
        if n.None? || n.value < 0 || n.value == ch.limit then Skip(ch, 1)
        else Done(ch.(limit := n.value), 1, [args[0]])
    else if ch.limit == 0 then Skip(ch, 0)
    else Done(ch.(limit := 0), 0, [])
  }

  /** Operator and voice changes are echoed even when the member already has (or lacks) the flag. */
  function LocalFlag(w: WorldState, ch: ChanState, on: bool, flag: Flag, args: seq<string>): Effect {
    if args == [] then Skip(ch, 0)
    else
      var target := w.FindByNick(args[0]);
      if target.None? || target.value.id !in ch.members then Skip(ch, 1)
      else Done(ChangeFlag(ch, on, flag, target.value.id), 1, [target.value.nick])
  }

  function LocalList(ch: ChanState, on: bool, kind: MaskKind, args: seq<string>, now: int): Effect {
    if args == [] then Skip(ch, 0)
    else if args[0] == "" || ((args[0] in ch.lists.Get(kind)) == on) then Skip(ch, 1)
    else Done(ChangeMask(ch, on, kind, args[0], now), 1, [args[0]])
  }

  /** +r is unknown on every channel that is not safe. */
  function LocalEffect(w: WorldState, ch: ChanState, on: bool, kind: ModeKind, args: seq<string>, now: int): (e: Effect)
    ensures e.used <= |args|
  {
    match kind
    case BoolMode(mode) =>
      if mode == ServerReop && !IsSafe(ch.name) then Effect(ch, 0, false, [], true) else Toggle(ch, on, mode)
    case KeyMode => LocalKey(ch, on, args)
    case LimitMode => LocalLimit(ch, on, args)
    case FlagMode(flag) => LocalFlag(w, ch, on, flag, args)
    case ListMode(masks) => LocalList(ch, on, masks, args, now)
    case NoMode => Effect(ch, 0, false, [], true)
  }

  /** The result of a whole MODE line: the channel, the echoed mode word and arguments, and the
      unknown mode characters. */
  datatype Outcome = Outcome(ch: ChanState, changes: string, params: seq<string>, unknown: string)

  predicate IsSign(mc: char) {
    mc == '+' || mc == '-'
  }

  function Echo(e: Effect, dir: char, mc: char): string {
    if e.echoed then [dir, mc] else ""
  }

  function Unknown(e: Effect, mc: char): string {
    if e.unknown then [mc] else ""
  }

  function Prepend(e: Effect, dir: char, mc: char, rest: Outcome): Outcome {
    Outcome(rest.ch, Echo(e, dir, mc) + rest.changes, e.param + rest.params, Unknown(e, mc) + rest.unknown)
  }

  /** The local interpreter from direction `dir` on: `word` is the rest of the mode word and `args`
      the arguments not taken yet. */
  function LocalRun(w: WorldState, ch: ChanState, dir: char, word: string, args: seq<string>, now: int): Outcome
    decreases |word|
  {
    if word == "" then Outcome(ch, "", [], "")
    else if IsSign(word[0]) then LocalRun(w, ch, word[0], word[1..], args, now)
    else
      var e := LocalEffect(w, ch, dir == '+', KindOf(word[0]), args, now);
      Prepend(e, dir, word[0], LocalRun(w, e.ch, dir, word[1..], args[e.used..], now))
  }

  // ----- the federation interpreter -----

  function RemoteKey(ch: ChanState, on: bool, args: seq<string>): ChanState {
    if !on then ch.(key := "")
    else if args == [] || args[0] == "" then ch
    else ch.(key := args[0])
  }

  function RemoteLimit(ch: ChanState, on: bool, args: seq<string>): ChanState {
    if !on then ch.(limit := 0)
    else if args == [] then ch
    else
      var n := ParseInt(args[0]);
      if n.None? || n.value < 0 then ch else ch.(limit := n.value)
  }

  /** The channel afterwards and the number of arguments taken. The modes it does not know (a, r, e, I,
      q and anything else) are skipped without taking an argument. */
  function RemoteEffect(w: WorldState, ch: ChanState, on: bool, kind: ModeKind, args: seq<string>,
                        now: int): (r: (ChanState, nat))
    ensures r.1 <= |args|
  {
    match kind
    case BoolMode(mode) =>
      if mode == Anonymous || mode == ServerReop then (ch, 0) else (ch.(modes := ch.modes.Set(mode, on)), 0)
    case KeyMode => (RemoteKey(ch, on, args), if on && args != [] then 1 else 0)
    case LimitMode => (RemoteLimit(ch, on, args), if on && args != [] then 1 else 0)
    case FlagMode(flag) =>
      if args == [] then (ch, 0)
      else
        var target := w.FindByNick(args[0]);
        if target.None? then (ch, 1) else (ChangeFlag(ch, on, flag, target.value.id), 1)
    case ListMode(masks) =>
      if masks != Ban || args == [] then (ch, 0)
      else if args[0] == "" then (ch, 1)
      else (ChangeMask(ch, on, Ban, args[0], now), 1)
    case NoMode => (ch, 0)
  }

  function RemoteRun(w: WorldState, ch: ChanState, dir: char, word: string, args: seq<string>, now: int): ChanState
    decreases |word|
  {
    if word == "" then ch
    else if IsSign(word[0]) then RemoteRun(w, ch, word[0], word[1..], args, now)
    else
      var r := RemoteEffect(w, ch, dir == '+', KindOf(word[0]), args, now);
      RemoteRun(w, r.0, dir, word[1..], args[r.1..], now)
  }

  // ----- neither interpreter renames the channel or moves members in or out -----

  ghost predicate SameFrame(a: ChanState, b: ChanState) {
    a.name == b.name && a.members.Keys == b.members.Keys
  }

  lemma LocalEffectFrame(w: WorldState, ch: ChanState, on: bool, kind: ModeKind, args: seq<string>, now: int)
    ensures SameFrame(ch, LocalEffect(w, ch, on, kind, args, now).ch)
  {
  }

  lemma RemoteEffectFrame(w: WorldState, ch: ChanState, on: bool, kind: ModeKind, args: seq<string>, now: int)
    ensures SameFrame(ch, RemoteEffect(w, ch, on, kind, args, now).0)
  {
  }

  lemma {:induction false} RemoteRunFrame(w: WorldState, ch: ChanState, dir: char, word: string, args: seq<string>,
                                          now: int)
    ensures SameFrame(ch, RemoteRun(w, ch, dir, word, args, now))
    decreases |word|
  {
    if word != "" {
      if IsSign(word[0]) {
        RemoteRunFrame(w, ch, word[0], word[1..], args, now);
      } else {
        var r := RemoteEffect(w, ch, dir == '+', KindOf(word[0]), args, now);
        RemoteEffectFrame(w, ch, dir == '+', KindOf(word[0]), args, now);
        RemoteRunFrame(w, r.0, dir, word[1..], args[r.1..], now);
      }
    }
  }

  lemma {:induction false} LocalRunFrame(w: WorldState, ch: ChanState, dir: char, word: string, args: seq<string>,
                                         now: int)
    ensures SameFrame(ch, LocalRun(w, ch, dir, word, args, now).ch)
    decreases |word|
  {
    if word != "" {
      if IsSign(word[0]) {
        LocalRunFrame(w, ch, word[0], word[1..], args, now);
      } else {
        var e := LocalEffect(w, ch, dir == '+', KindOf(word[0]), args, now);
        LocalEffectFrame(w, ch, dir == '+', KindOf(word[0]), args, now);
        LocalRunFrame(w, e.ch, dir, word[1..], args[e.used..], now);
      }
    }
  }
}
