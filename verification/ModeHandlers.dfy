/** The two MODE interpreters as they run: each walks the mode word with a direction and an argument
    position and changes the channel in place; the local one also builds the echo. */
module ModeHandlers {
  import opened Prelude
  import opened Numbers
  import opened State
  import opened ModeSpec
  import opened Channel
  import W = World

  lemma PutSame(ls: Lists, kind: MaskKind)
    ensures ls.Put(kind, ls.Get(kind)) == ls
  {
  }

  lemma MaskUnchanged(ch: ChanState, on: bool, kind: MaskKind, mask: string, now: int)
    requires (mask in ch.lists.Get(kind)) == on
    ensures ChangeMask(ch, on, kind, mask, now) == ch
  {
    var masks := ch.lists.Get(kind);
    assert !on ==> masks - {mask} == masks;
    PutSame(ch.lists, kind);
  }

  lemma RemoveIgnoresTime(ch: ChanState, kind: MaskKind, mask: string, now: int)
    ensures ChangeMask(ch, false, kind, mask, now) == ChangeMask(ch, false, kind, mask, 0)
  {
  }

  /** Add or remove a mask; tells whether the list changed. */
  method SetMask(ch: Channel, on: bool, kind: MaskKind, mask: string, now: int) returns (changed: bool)
    modifies ch
    ensures ch.State() == ChangeMask(old(ch.State()), on, kind, mask, now)
    ensures changed == ((mask in old(ch.State()).lists.Get(kind)) != on)
  {
    if on {
      changed := ch.AddToList(kind, mask, now);
    } else {
      RemoveIgnoresTime(ch.State(), kind, mask, now);
      changed := ch.RemoveFromList(kind, mask);
    }
  }

  /** Give or take a flag of a member. */
  method SetFlag(ch: Channel, on: bool, flag: Flag, id: UserID) returns (changed: bool)
    modifies ch
    ensures ch.State() == ChangeFlag(old(ch.State()), on, flag, id) && changed == (id in old(ch.members))
  {
    if on {
      changed := ch.AddMembership(id, flag);
    } else {
      changed := ch.RemoveMembership(id, flag);
    }
  }

  // ----- one mode character, locally -----

  method LocalToggle(ch: Channel, on: bool, mode: BoolMode) returns (echoed: bool)
    modifies ch
    ensures Effect(ch.State(), 0, echoed, [], false) == Toggle(old(ch.State()), on, mode)
  {
    SetSame(ch.modes, mode);
    echoed := ch.SetBoolMode(mode, on);
  }

  method LocalKeyMode(ch: Channel, on: bool, args: seq<string>) returns (used: nat, echoed: bool, param: seq<string>)
    modifies ch
    ensures Effect(ch.State(), used, echoed, param, false) == LocalKey(old(ch.State()), on, args)
  {
    used, echoed, param := 0, false, [];
    if on {
      if args == [] {
        return;
      }
      used := 1;
      if args[0] == "" {
        return;
      }
      echoed := ch.SetKey(args[0]);
      if echoed {
        param := [args[0]];
      }
    } else {
      echoed := ch.SetKey("");
    }
  }

  method LocalLimitMode(ch: Channel, on: bool, args: seq<string>) returns (used: nat, echoed: bool, param: seq<string>)
    modifies ch
    ensures Effect(ch.State(), used, echoed, param, false) == LocalLimit(old(ch.State()), on, args)
  {
    used, echoed, param := 0, false, [];
    if on {
      if args == [] {
        return;
      }
      used := 1;
      var n := ParseInt(args[0]);
      if n.None? || n.value < 0 {
        return;
      }
      echoed := ch.SetLimit(n.value);
      if echoed {
        param := [args[0]];
      }
    } else {
      echoed := ch.SetLimit(0);
    }
  }

  method LocalFlagMode(w: W.World, ch: Channel, on: bool, flag: Flag, args: seq<string>)
    returns (used: nat, echoed: bool, param: seq<string>)
    requires w.UsersLinked()
    modifies ch
    ensures Effect(ch.State(), used, echoed, param, false) == LocalFlag(w.model, old(ch.State()), on, flag, args)
  {
    used, echoed, param := 0, false, [];
    if args == [] {
      return;
    }
    used := 1;
    var target := w.FindByNick(args[0]);
    if target == null || target.id !in ch.members {
      return;
    }
    echoed := SetFlag(ch, on, flag, target.id);
    param := [target.nick];
  }

  method LocalListMode(ch: Channel, on: bool, kind: MaskKind, args: seq<string>, now: int)
    returns (used: nat, echoed: bool, param: seq<string>)
    modifies ch
    ensures Effect(ch.State(), used, echoed, param, false) == LocalList(old(ch.State()), on, kind, args, now)
  {
    used, echoed, param := 0, false, [];
    if args == [] {
      return;
    }
    used := 1;
    if args[0] == "" {
      return;
    }
    if (args[0] in ch.State().lists.Get(kind)) == on {
      MaskUnchanged(ch.State(), on, kind, args[0], now);
    }
    echoed := SetMask(ch, on, kind, args[0], now);
    if echoed {
      param := [args[0]];
    }
  }

  method LocalOne(w: W.World, ch: Channel, on: bool, mc: char, args: seq<string>, now: int)
    returns (used: nat, echoed: bool, param: seq<string>, unknown: bool)
    requires w.UsersLinked()
    modifies ch
    ensures Effect(ch.State(), used, echoed, param, unknown)
            == LocalEffect(w.model, old(ch.State()), on, KindOf(mc), args, now)
    ensures used <= |args|
  {
    used, echoed, param, unknown := 0, false, [], false;
    match KindOf(mc) {
      case BoolMode(mode) =>
        if mode == ServerReop && !IsSafe(ch.name) {
          unknown := true;
        } else {
          echoed := LocalToggle(ch, on, mode);
        }
      case KeyMode => used, echoed, param := LocalKeyMode(ch, on, args);
      case LimitMode => used, echoed, param := LocalLimitMode(ch, on, args);
      case FlagMode(flag) => used, echoed, param := LocalFlagMode(w, ch, on, flag, args);
      case ListMode(kind) => used, echoed, param := LocalListMode(ch, on, kind, args, now);
      case NoMode => unknown := true;
    }
  }

  /** What the loop has done, before what is left to do. */
  ghost function Onto(changes: string, params: seq<string>, unknown: string, rest: Outcome): Outcome {
    Outcome(rest.ch, changes + rest.changes, params + rest.params, unknown + rest.unknown)
  }

  lemma OntoStep(changes: string, params: seq<string>, unknown: string, e: Effect, dir: char, mc: char, rest: Outcome)
    ensures Onto(changes, params, unknown, Prepend(e, dir, mc, rest))
            == Onto(changes + Echo(e, dir, mc), params + e.param, unknown + Unknown(e, mc), rest)
  {
    Assoc(changes, Echo(e, dir, mc), rest.changes);
    Assoc(params, e.param, rest.params);
    Assoc(unknown, Unknown(e, mc), rest.unknown);
  }

  lemma StepLocal(w: WorldState, before: ChanState, e: Effect, dir: char, word: string, i: nat, args: seq<string>,
                  k: nat, now: int,
                  changes: string, params: seq<string>, unknown: string)
    requires i < |word| && !IsSign(word[i]) && k <= |args|
             && e == LocalEffect(w, before, dir == '+', KindOf(word[i]), args[k..], now)
    ensures Onto(changes, params, unknown, LocalRun(w, before, dir, word[i..], args[k..], now))
            == Onto(changes + Echo(e, dir, word[i]), params + e.param, unknown + Unknown(e, word[i]),
                    LocalRun(w, e.ch, dir, word[i + 1..], args[k + e.used..], now))
  {
    assert word[i..][1..] == word[i + 1..];
    assert args[k..][e.used..] == args[k + e.used..];
    OntoStep(changes, params, unknown, e, dir, word[i], LocalRun(w, e.ch, dir, word[i + 1..], args[k + e.used..], now));
  }

  /** The mode characters written so far never end in a sign, so the direction is written every time. */
  method FlushDir(dirOut: string, dir: char) returns (out: string)
    requires IsSign(dir) && (dirOut == "" || !IsSign(dirOut[|dirOut| - 1]))
    ensures out == dirOut + [dir]
  {
    out := dirOut;
    if |dirOut| == 0 || dirOut[|dirOut| - 1] != dir {
      out := out + [dir];
    }
  }

  /** applyChannelModes: the channel is changed as LocalRun says, and the echo and the unknown
      characters are its. */
  method ApplyChannelModes(w: W.World, ch: Channel, params: seq<string>, now: int)
    returns (changes: string, outParams: seq<string>, bad: string)
    requires w.UsersLinked()
    modifies ch
    ensures params == [] ==> ch.State() == old(ch.State()) && changes == "" && outParams == [] && bad == ""
    ensures params != [] ==>
              Outcome(ch.State(), changes, outParams, bad)
                == LocalRun(w.model, old(ch.State()), '+', params[0], params[1..], now)
  {
    changes, outParams, bad := "", [], "";
    if params == [] {
      return;
    }
    var word, args := params[0], params[1..];
    var k, dir := 0, '+';
    ghost var goal := LocalRun(w.model, ch.State(), '+', word, args, now);
    assert word[0..] == word && args[0..] == args && goal == Onto("", [], "", goal);
    for i := 0 to |word|
      invariant 0 <= k <= |args| && IsSign(dir) && (changes == "" || !IsSign(changes[|changes| - 1]))
      invariant goal == Onto(changes, outParams, bad, LocalRun(w.model, ch.State(), dir, word[i..], args[k..], now))
    {
      var mc := word[i];
      if mc == '+' || mc == '-' {
        assert word[i..][1..] == word[i + 1..];
        dir := mc;
        continue;
      }
      k, changes, outParams, bad := ApplyChar(w, ch, dir, word, i, args, k, now, changes, outParams, bad);
    }
  }

  /** One turn of the loop for a character that is not a sign. */
  method ApplyChar(w: W.World, ch: Channel, dir: char, word: string, i: nat, args: seq<string>, k: nat, now: int,
                   changes: string, params: seq<string>, bad: string)
    returns (k': nat, changes': string, params': seq<string>, bad': string)
    requires w.UsersLinked() && i < |word| && !IsSign(word[i]) && k <= |args| && IsSign(dir)
    requires changes == "" || !IsSign(changes[|changes| - 1])
    modifies ch
    ensures k' <= |args| && (changes' == "" || !IsSign(changes'[|changes'| - 1]))
    ensures Onto(changes', params', bad', LocalRun(w.model, ch.State(), dir, word[i + 1..], args[k'..], now))
            == Onto(changes, params, bad, LocalRun(w.model, old(ch.State()), dir, word[i..], args[k..], now))
  {
    hide W.World.UsersLinked, LocalRun, LocalEffect, Onto, KindOf;
    var used, echoed, param, unknown := LocalOne(w, ch, dir == '+', word[i], args[k..], now);
    ghost var e := Effect(ch.State(), used, echoed, param, unknown);
    StepLocal(w.model, old(ch.State()), e, dir, word, i, args, k, now, changes, params, bad);
    k' := k + used;
    changes', params', bad' := Record(changes, params, bad, dir, word[i], echoed, param, unknown, e);
  }

  /** The echo and the unknown characters after one character with effect `e`. */
  method Record(changes: string, params: seq<string>, bad: string, dir: char, mc: char, echoed: bool,
                param: seq<string>, unknown: bool,
                ghost e: Effect)
    returns (changes': string, params': seq<string>, bad': string)
    requires IsSign(dir) && !IsSign(mc) && (changes == "" || !IsSign(changes[|changes| - 1]))
    requires e.echoed == echoed && e.param == param && e.unknown == unknown
    ensures changes' == changes + Echo(e, dir, mc) && params' == params + e.param && bad' == bad + Unknown(e, mc)
    ensures changes' == "" || !IsSign(changes'[|changes'| - 1])
  {
    changes', params', bad' := changes, params + param, bad;
    if echoed {
      changes' := FlushDir(changes', dir);
      changes' := changes' + [mc];
    }
    if unknown {
      bad' := bad' + [mc];
    }
  }

  // ----- over a federation link -----

  method RemoteFlagMode(w: W.World, ch: Channel, on: bool, flag: Flag, args: seq<string>) returns (used: nat)
    requires w.UsersLinked()
    modifies ch
    ensures used == if args == [] then 0 else 1
    ensures ch.State() == RemoteFlag(w.model, old(ch.State()), on, flag, args)
  {
    if args == [] {
      return 0;
    }
    used := 1;
    var target := w.FindByNick(args[0]);
    if target == null || target.id !in ch.members {
      return;
    }
    var changed := SetFlag(ch, on, flag, target.id);
  }

  function RemoteFlag(w: WorldState, ch: ChanState, on: bool, flag: Flag, args: seq<string>): ChanState {
    if args == [] || w.FindByNick(args[0]).None? then ch else ChangeFlag(ch, on, flag, w.FindByNick(args[0]).value.id)
  }

  method RemoteParamMode(ch: Channel, on: bool, kind: ModeKind, args: seq<string>) returns (used: nat)
    requires kind.KeyMode? || kind.LimitMode?
    modifies ch
    ensures forall w, now :: (ch.State(), used) == RemoteEffect(w, old(ch.State()), on, kind, args, now)
  {
    used := 0;
    var changed;
    if !on {
      if kind.KeyMode? {
        changed := ch.SetKey("");
      } else {
        changed := ch.SetLimit(0);
      }
      return;
    }
    if args == [] {
      return;
    }
    used := 1;
    if kind.KeyMode? {
      if args[0] != "" {
        changed := ch.SetKey(args[0]);
      }
    } else {
      var n := ParseInt(args[0]);
      if n.Some? && n.value >= 0 {
        changed := ch.SetLimit(n.value);
      }
    }
  }

  method RemoteOne(w: W.World, ch: Channel, on: bool, mc: char, args: seq<string>, now: int) returns (used: nat)
    requires w.UsersLinked()
    modifies ch
    ensures (ch.State(), used) == RemoteEffect(w.model, old(ch.State()), on, KindOf(mc), args, now)
    ensures used <= |args|
  {
    used := 0;
    var changed;
    match KindOf(mc) {
      case BoolMode(mode) =>
        if mode != Anonymous && mode != ServerReop {
          changed := ch.SetBoolMode(mode, on);
        }
      case KeyMode => used := RemoteParamMode(ch, on, KeyMode, args);
      case LimitMode => used := RemoteParamMode(ch, on, LimitMode, args);
      case FlagMode(flag) => used := RemoteFlagMode(w, ch, on, flag, args);
      case ListMode(kind) =>
        if kind == Ban && args != [] {
          used := 1;
          if args[0] != "" {
            changed := SetMask(ch, on, Ban, args[0], now);
          }
        }
      case NoMode =>
    }
  }

  /** applyRemoteChannelMode. */
  method ApplyRemoteChannelMode(w: W.World, ch: Channel, params: seq<string>, now: int)
    requires w.UsersLinked()
    modifies ch
    ensures ch.State() == if params == [] then old(ch.State())
                          else RemoteRun(w.model, old(ch.State()), '+', params[0], params[1..], now)
  {
    if params == [] {
      return;
    }
    hide W.World.UsersLinked, RemoteRun, RemoteEffect, KindOf;
    var word, args := params[0], params[1..];
    var k, dir := 0, '+';
    assert word[0..] == word && args[0..] == args;
    for i := 0 to |word|
      invariant 0 <= k <= |args|
      invariant RemoteRun(w.model, ch.State(), dir, word[i..], args[k..], now)
                == RemoteRun(w.model, old(ch.State()), '+', word, args, now)
    {
      var mc := word[i];
      StepRemote(w.model, ch.State(), dir, word, i, args, k, now);
      if mc == '+' || mc == '-' {
        dir := mc;
        continue;
      }
      var used := RemoteOne(w, ch, dir == '+', mc, args[k..], now);
      k := k + used;
    }
    NothingLeft(w.model, ch.State(), dir, args[k..], now);
  }

  lemma NothingLeft(w: WorldState, ch: ChanState, dir: char, args: seq<string>, now: int)
    ensures RemoteRun(w, ch, dir, "", args, now) == ch
  {
  }

  lemma StepRemote(w: WorldState, ch: ChanState, dir: char, word: string, i: nat, args: seq<string>, k: nat, now: int)
    requires i < |word| && k <= |args|
    ensures IsSign(word[i]) ==>
              RemoteRun(w, ch, dir, word[i..], args[k..], now)
                == RemoteRun(w, ch, word[i], word[i + 1..], args[k..], now)
    ensures !IsSign(word[i]) ==>
              var r := RemoteEffect(w, ch, dir == '+', KindOf(word[i]), args[k..], now);
              RemoteRun(w, ch, dir, word[i..], args[k..], now)
                == RemoteRun(w, r.0, dir, word[i + 1..], args[k + r.1..], now)
  {
    hide RemoteEffect;
    assert word[i..][1..] == word[i + 1..];
    var r := RemoteEffect(w, ch, dir == '+', KindOf(word[i]), args[k..], now);
    assert args[k..][r.1..] == args[k + r.1..];
  }
}
