/** The mutable record of one channel. Every method does to the object exactly what the matching
    function of State.dfy does to its value. */
module Channel {
  import opened Prelude
  import opened Numbers
  import opened CaseMap
  import opened State
  import opened ModeSpec
  import opened FedSpec
  import opened Clients
  import opened Records
  import Glob

  class Channel {
    var name: string
    var createdAt: Int64
    var topic: string
    var topicSetBy: string
    var topicSetAt: int
    var key: string
    var limit: Int64
    var modes: Modes
    var members: map<UserID, Membership>
    var bans: Masks
    var exceptions: Masks
    var invexes: Masks
    var quiets: Masks
    var invites: set<UserID>

    ghost function MaskLists(): Lists
      reads this
    {
      Lists(bans, exceptions, invexes, quiets)
    }

    ghost function State(): ChanState
      reads this
    {
      ChanState(name, createdAt, Topic(topic, topicSetBy, topicSetAt), key, limit, modes, members, MaskLists(), invites)
    }

    constructor (name: string, now: Int64)
      ensures State() == NewChan(name, now)
    {
      this.name := name;
      createdAt := now;
      topic, topicSetBy, topicSetAt := "", "", 0;
      key, limit := "", 0;
      modes := DEFAULT_MODES;
      members := map[];
      bans, exceptions, invexes, quiets := map[], map[], map[], map[];
      invites := {};
    }

    method AdoptOlderTS(ts: Int64) returns (adopted: bool)
      modifies this
      ensures adopted == old(State()).TSIsOlder(ts) && State() == old(State()).AdoptOlderTS(ts)
    {
      if ts <= 0 || ts >= createdAt {
        return false;
      }
      createdAt := ts;
      adopted := true;
    }

    /** The loop assigns every member in turn, in any order. */
    method ResetMembershipFlags()
      modifies this
      ensures State() == old(State()).ResetMembershipFlags()
    {
      var todo := members.Keys;
      ghost var before := members;
      while todo != {}
        invariant members.Keys == before.Keys && todo <= members.Keys
        invariant forall id :: id in members ==> members[id] == if id in todo then before[id] else NO_FLAGS
        invariant State() == old(State()).(members := members)
      {
        var id :| id in todo;
        members := members[id := NO_FLAGS];
        todo := todo - {id};
      }
      assert members == map id | id in before :: NO_FLAGS;
    }

    method SetTopic(text: string, setBy: string, at: int)
      modifies this
      ensures State() == old(State()).(topic := Topic(text, setBy, at))
    {
      topic := text;
      topicSetBy := setBy;
      topicSetAt := at;
    }

    method AddMember(id: UserID, isFirst: bool) returns (m: Membership, added: bool)
      modifies this
      ensures State() == old(State()).AddMember(id, isFirst)
      ensures added == (id !in old(members)) && id in members && m == members[id]
    {
      if id in members {
        return members[id], false;
      }
      m := NO_FLAGS;
      if isFirst && |name| > 0 {
        if name[0] == '+' {
        } else if name[0] == '!' {
          m := NO_FLAGS.With(Creator);
        } else {
          m := NO_FLAGS.With(Op);
        }
      }
      members := members[id := m];
      added := true;
    }

    method RemoveMember(id: UserID) returns (removed: bool)
      modifies this
      ensures State() == old(State()).RemoveMember(id) && removed == (id in old(members))
    {
      removed := id in members;
      members := members - {id};
    }

    method AddMembership(id: UserID, flag: Flag) returns (ok: bool)
      modifies this
      ensures State() == old(State()).AddMembership(id, flag) && ok == (id in old(members))
    {
      ok := id in members;
      if ok {
        members := members[id := members[id].With(flag)];
      }
    }

    method RemoveMembership(id: UserID, flag: Flag) returns (ok: bool)
      modifies this
      ensures State() == old(State()).RemoveMembership(id, flag) && ok == (id in old(members))
    {
      ok := id in members;
      if ok {
        members := members[id := members[id].Without(flag)];
      }
    }

    method SetBoolMode(mode: BoolMode, on: bool) returns (changed: bool)
      modifies this
      ensures State() == old(State()).(modes := old(modes).Set(mode, on))
      ensures changed == (old(modes).Get(mode) != on)
    {
      changed := modes.Get(mode) != on;
      if changed {
        modes := modes.Set(mode, on);
      } else {
        SetSame(modes, mode);
      }
    }

    method SetKey(key: string) returns (changed: bool)
      modifies this
      ensures State() == old(State()).(key := key) && changed == (old(this.key) != key)
    {
      changed := this.key != key;
      this.key := key;
    }

    method SetLimit(limit: Int64) returns (changed: bool)
      modifies this
      ensures State() == old(State()).(limit := if limit < 0 then 0 else limit)
      ensures changed == (old(this.limit) != if limit < 0 then 0 else limit)
    {
      var bounded: Int64 := if limit < 0 then 0 else limit;
      changed := this.limit != bounded;
      this.limit := bounded;
    }

    function Masks(kind: MaskKind): Masks
      reads this
    {
      match kind
      case Ban => bans
      case Exception => exceptions
      case Invex => invexes
      case Quiet => quiets
    }

    method PutMasks(kind: MaskKind, masks: Masks)
      modifies this
      ensures State() == old(State()).(lists := old(MaskLists()).Put(kind, masks))
    {
      match kind
      case Ban => bans := masks;
      case Exception => exceptions := masks;
      case Invex => invexes := masks;
      case Quiet => quiets := masks;
    }

    /** AddBan, AddException, AddInvex and AddQuiet. */
    method AddToList(kind: MaskKind, mask: string, at: int) returns (added: bool)
      modifies this
      ensures added == (mask !in old(MaskLists()).Get(kind))
      ensures State() == ChangeMask(old(State()), true, kind, mask, at)
    {
      var masks := Masks(kind);
      added := mask !in masks;
      PutMasks(kind, if added then masks[mask := at] else masks);
    }

    /** RemoveBan, RemoveException, RemoveInvex and RemoveQuiet. */
    method RemoveFromList(kind: MaskKind, mask: string) returns (removed: bool)
      modifies this
      ensures removed == (mask in old(MaskLists()).Get(kind))
      ensures State() == ChangeMask(old(State()), false, kind, mask, 0)
    {
      var masks := Masks(kind);
      removed := mask in masks;
      PutMasks(kind, masks - {mask});
    }

    /** MatchesBan, MatchesException, MatchesInvex and MatchesQuiet: some folded mask of the list
        matches the folded hostmask. */
    method MatchesList(kind: MaskKind, mapping: CaseMapping, hostmask: string) returns (r: bool)
      ensures r == MatchesAny(mapping, MaskLists().Get(kind), hostmask)
    {
      var folded := FoldLoop(mapping, hostmask);
      var masks := Masks(kind);
      var todo := masks.Keys;
      while todo != {}
        invariant todo <= masks.Keys
        invariant forall mask :: mask in masks && mask !in todo ==> !Glob.Matches(Fold(mapping, mask), folded)
      {
        var mask :| mask in todo;
        var pattern := FoldLoop(mapping, mask);
        var hit := Glob.GlobMatch(pattern, folded);
        if hit {
          return true;
        }
        todo := todo - {mask};
      }
      r := false;
    }

    method AddInvite(id: UserID) returns (added: bool)
      modifies this
      ensures State() == old(State()).(invites := old(invites) + {id}) && added == (id !in old(invites))
    {
      added := id !in invites;
      invites := invites + {id};
    }

    method ConsumeInvite(id: UserID) returns (had: bool)
      modifies this
      ensures State() == old(State()).(invites := old(invites) - {id}) && had == (id in old(invites))
    {
      had := id in invites;
      invites := invites - {id};
    }

    /** The letters of the boolean modes that are on, appended one by one. */
    method BoolLetters() returns (out: string)
      ensures out == Letters(modes)
    {
      out := Letter(modes.noExternal, "n");
      out := out + Letter(modes.topicLocked, "t");
      out := out + Letter(modes.moderated, "m");
      out := out + Letter(modes.inviteOnly, "i");
      out := out + Letter(modes.private, "p");
      out := out + Letter(modes.secret, "s");
      out := out + Letter(modes.anonymous, "a");
      out := out + Letter(modes.serverReop, "r");
      LeftToRight(modes);
    }

    /** The canonical mode word and its parameters. */
    method ModeString() returns (word: string, params: seq<string>)
      ensures word == ModeWord(State()) && params == ModeParams(State())
    {
      var out := BoolLetters();
      var keyed := Letter(key != "", "k");
      var limited := Letter(limit > 0, "l");
      word := "+" + (out + (keyed + limited));
      params := if key != "" then [key] else [];
      if limit > 0 {
        var digits := ItoaPositive(limit);
        params := params + [digits];
      } else {
        assert params + [] == params;
      }
    }

    /** Overwrites a fresh channel with stored state. */
    method RestoreState(topic: string, topicSetBy: string, topicSetAt: int, modeWord: string, key: string, limit: Int64,
                        bans: Masks, exceptions: Masks, invexes: Masks, quiets: Masks)
      modifies this
      ensures State() == Records.RestoreState(old(State()), Topic(topic, topicSetBy, topicSetAt), modeWord, key, limit,
                                              Lists(bans, exceptions, invexes, quiets))
    {
      var read := LettersOn(modeWord);
      var copy := CopyMasks(bans);
      var copy' := CopyMasks(exceptions);
      SetTopic(topic, topicSetBy, topicSetAt);
      this.key, this.limit, this.modes := key, limit, read;
      this.bans, this.exceptions := copy, copy';
      copy := CopyMasks(invexes);
      copy' := CopyMasks(quiets);
      this.invexes, this.quiets := copy, copy';
    }
  }

  /** The loop of RestoreState over a stored mode word. */
  method LettersOn(word: string) returns (modes: Modes)
    ensures modes == ReadWord(NO_MODES, word)
  {
    modes := NO_MODES;
    for i := 0 to |word|
      invariant ReadWord(modes, word[i..]) == ReadWord(NO_MODES, word)
    {
      assert word[i..][1..] == word[i + 1..];
      match KindOf(word[i]) {
        case BoolMode(mode) => modes := modes.Set(mode, true);
        case _ =>
      }
    }
  }

  /** Copying a map entry by entry, in any order. */
  method CopyMasks(masks: Masks) returns (copy: Masks)
    ensures copy == masks
  {
    copy := map[];
    var todo := masks.Keys;
    while todo != {}
      invariant todo <= masks.Keys && copy.Keys == masks.Keys - todo
      invariant forall mask :: mask in copy ==> copy[mask] == masks[mask]
    {
      var mask :| mask in todo;
      copy := copy[mask := masks[mask]];
      todo := todo - {mask};
    }
  }

  /** The letters appended one by one are the letters of the mode word. */
  lemma LeftToRight(m: Modes)
    ensures Letter(m.noExternal, "n") + Letter(m.topicLocked, "t") + Letter(m.moderated, "m")
            + Letter(m.inviteOnly, "i")
            + Letter(m.private, "p") + Letter(m.secret, "s") + Letter(m.anonymous, "a") + Letter(m.serverReop, "r")
            == Letters(m)
  {
    Regroup(Letter(m.noExternal, "n"), Letter(m.topicLocked, "t"), Letter(m.moderated, "m"), Letter(m.inviteOnly, "i"),
            Letter(m.private, "p"), Letter(m.secret, "s"), Letter(m.anonymous, "a"), Letter(m.serverReop, "r"));
  }

  lemma Regroup(a: string, b: string, c: string, d: string, e: string, f: string, g: string, h: string)
    ensures a + b + c + d + e + f + g + h == a + (b + (c + (d + (e + (f + (g + h))))))
  {
    Assoc(a + b + c + d + e + f, g, h);
    Assoc(a + b + c + d + e, f, g + h);
    Assoc(a + b + c + d, e, f + (g + h));
    Assoc(a + b + c, d, e + (f + (g + h)));
    Assoc(a + b, c, d + (e + (f + (g + h))));
    Assoc(a, b, c + (d + (e + (f + (g + h)))));
  }

  lemma SetSame(modes: Modes, mode: BoolMode)
    ensures modes.Set(mode, modes.Get(mode)) == modes
  {
  }
}
