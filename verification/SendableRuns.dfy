/** What local clients do keeps a node's state fit for a burst. */
module SendableRuns {
  import opened Prelude
  import opened Numbers
  import opened State
  import opened ModeSpec
  import opened Clients
  import opened Safety
  import opened BurstUsers
  import opened WireSpec

  predicate PlainChan(ch: ChanState) {
    ch.createdAt > 0 && "" !in ch.lists.bans
  }

  ghost predicate PlainUsers(w: WorldState) {
    forall id :: id in w.users ==> '!' !in w.users[id].nick
  }

  ghost predicate PlainChans(w: WorldState) {
    forall c :: c in w.chans ==> PlainChan(w.chans[c])
  }

  /** A command as the daemon lets it through: nicks have no '!', and the clock is past 1970. */
  predicate Ordinary(c: Command) {
    match c
    case Register(u) => '!' !in u.nick
    case Nick(_, nick) => '!' !in nick
    case Join(_, _, _, _, _, _, now) => now > 0
    case _ => true
  }

  lemma PlainIsSendable(s: Server)
    requires Safe(s) && PlainUsers(s.w) && PlainChans(s.w)
    ensures Sendable(s.w)
  {
    assert forall c :: c in s.w.chans ==> ChanSafe(s, c);
  }

  lemma {:induction false} LocalRunPlain(w: WorldState, ch: ChanState, dir: char, word: string, args: seq<string>,
                                         now: int)
    requires PlainChan(ch)
    ensures PlainChan(LocalRun(w, ch, dir, word, args, now).ch)
    decreases |word|
  {
    if word != "" {
      if IsSign(word[0]) {
        LocalRunPlain(w, ch, word[0], word[1..], args, now);
      } else {
        var e := LocalEffect(w, ch, dir == '+', KindOf(word[0]), args, now);
        LocalEffectPlain(w, ch, dir == '+', KindOf(word[0]), args, now);
        LocalRunPlain(w, e.ch, dir, word[1..], args[e.used..], now);
      }
    }
  }

  /** No interpreter adds the empty mask. */
  lemma LocalEffectPlain(w: WorldState, ch: ChanState, on: bool, kind: ModeKind, args: seq<string>, now: int)
    requires PlainChan(ch)
    ensures PlainChan(LocalEffect(w, ch, on, kind, args, now).ch)
  {
  }

  // ----- one command -----

  lemma JoinPlain(w: WorldState, id: UserID, name: string, now: Int64)
    requires PlainUsers(w) && PlainChans(w) && now > 0
    ensures PlainUsers(w.JoinChannel(id, name, now)) && PlainChans(w.JoinChannel(id, name, now))
  {
    if id in w.users {
      var ch := w.JoinedChan(id, name, now);
      assert w.Key(name) in w.chans ==> PlainChan(w.chans[w.Key(name)]);
      assert PlainChan(ch);
    }
  }

  lemma JoinOnePlain(w: WorldState, id: UserID, name: string, key: string, now: Int64)
    requires PlainUsers(w) && PlainChans(w) && now > 0 && id in w.users
    ensures PlainUsers(JoinOne(w, id, name, key, now)) && PlainChans(JoinOne(w, id, name, key, now))
  {
    JoinPlain(w, id, name, now);
    if w.FindChannel(name).Some? {
      var after := WithChan(w, w.Key(name), AfterPolicy(w.mapping, w.FindChannel(name).value, w.users[id]));
      assert PlainChan(w.chans[w.Key(name)]);
      JoinPlain(after, id, name, now);
    }
  }

  lemma PartPlain(w: WorldState, id: UserID, name: string)
    requires PlainUsers(w) && PlainChans(w)
    ensures PlainUsers(w.PartChannel(id, name)) && PlainChans(w.PartChannel(id, name))
  {
  }

  lemma ModePlain(w: WorldState, id: UserID, name: string, params: seq<string>, now: int)
    requires PlainUsers(w) && PlainChans(w)
    ensures PlainUsers(ModeOne(w, id, name, params, now)) && PlainChans(ModeOne(w, id, name, params, now))
  {
    if w.FindChannel(name).Some? && params != [] {
      LocalRunPlain(w, w.FindChannel(name).value, '+', params[0], params[1..], now);
    }
  }

  lemma SettingsPlain(w: WorldState, name: string, ch: ChanState)
    requires PlainUsers(w) && PlainChans(w) && w.FindChannel(name).Some?
    requires ch == w.FindChannel(name).value.(topic := ch.topic, invites := ch.invites)
    ensures PlainUsers(WithChan(w, w.Key(name), ch)) && PlainChans(WithChan(w, w.Key(name), ch))
  {
    assert PlainChan(w.chans[w.Key(name)]);
  }

  lemma InvitePlain(w: WorldState, id: UserID, target: string, name: string)
    requires PlainUsers(w) && PlainChans(w)
    ensures PlainUsers(InviteOne(w, id, target, name)) && PlainChans(InviteOne(w, id, target, name))
  {
    if w.FindByNick(target).Some? && w.FindChannel(name).Some? {
      SettingsPlain(w, name, Invited(w.FindChannel(name).value, w.FindByNick(target).value.id));
    }
  }

  lemma TopicPlain(w: WorldState, id: UserID, name: string, text: string, now: int)
    requires PlainUsers(w) && PlainChans(w)
    ensures PlainUsers(TopicOne(w, id, name, text, now)) && PlainChans(TopicOne(w, id, name, text, now))
  {
    if w.FindChannel(name).Some? && id in w.users {
      SettingsPlain(w, name, w.FindChannel(name).value.(topic := Topic(text, w.users[id].Hostmask(), now)));
    }
  }

  lemma UsersPlain(w: WorldState, c: Command)
    requires PlainUsers(w) && PlainChans(w) && Ordinary(c) && (c.Register? || c.Nick? || c.Close?)
    ensures PlainUsers(Exec(w, c)) && PlainChans(Exec(w, c))
  {
  }

  lemma ExecPlain(w: WorldState, c: Command)
    requires PlainUsers(w) && PlainChans(w) && Ordinary(c)
    ensures PlainUsers(Exec(w, c)) && PlainChans(Exec(w, c))
  {
    match c
    case Join(id, _, key, _, _, _, now) =>
      if id in w.users && FinalName(w, c).Some? {
        JoinOnePlain(w, id, FinalName(w, c).value, key, now);
      }
    case Part(id, name) => PartPlain(w, id, name);
    case Kick(id, name, target) =>
      if w.FindChannel(name).Some? && w.FindByNick(target).Some? {
        PartPlain(w, w.FindByNick(target).value.id, w.FindChannel(name).value.name);
      }
    case Mode(id, name, params, now) => ModePlain(w, id, name, params, now);
    case SetTopic(id, name, text, now) => TopicPlain(w, id, name, text, now);
    case Invite(id, target, name) => InvitePlain(w, id, target, name);
    case _ => UsersPlain(w, c);
  }

  // ----- whole runs -----

  lemma {:induction false} RunPlain(s: Server, cs: seq<Command>)
    requires PlainUsers(s.w) && PlainChans(s.w) && forall c :: c in cs ==> Ordinary(c)
    ensures PlainUsers(Run(s, cs).w) && PlainChans(Run(s, cs).w)
    decreases |cs|
  {
    if cs != [] {
      assert cs[0] in cs && forall c :: c in cs[1..] ==> c in cs;
      ExecPlain(s.w, cs[0]);
      RunPlain(Do(s, cs[0]), cs[1..]);
    }
  }

  /** On a server booted with plain channels, or none, every run of ordinary commands leaves a state that
      can be sent in a burst. */
  lemma RunsStaySendable(s: Server, cs: seq<Command>)
    requires Booted(s) && PlainChans(s.w) && forall c :: c in cs ==> Ordinary(c)
    ensures Sendable(Run(s, cs).w)
  {
    assert Safe(s);
    RunSafe(s, cs);
    RunPlain(s, cs);
    PlainIsSendable(Run(s, cs));
  }

  // ----- channel names -----

  /** A name that is one parameter of a line and one item of a list: a word without commas or BELs, behind one of the
      four prefixes. */
  predicate PlainName(name: string) {
    |name| >= 2 && name[0] in {'#', '&', '+', '!'} && MiddleOk(name) && ',' !in name && '\U{0007}' !in name
  }

  ghost predicate PlainNames(w: WorldState) {
    forall c :: c in w.chans ==> PlainName(w.chans[c].name)
  }

  /** The names that a join accepts: all plain names up to the length limit, which is 50 where none is set. */
  lemma ValidIsPlain(name: string, maxLen: int)
    ensures ValidChannelName(name, maxLen) <==> PlainName(name) && |name| <= if maxLen <= 0 then 50 else maxLen
  {
    if |name| >= 2 && name[0] in {'#', '&', '+', '!'} {
      forall i | 1 <= i < |name|
        ensures ValidNameChar(name[i]) <==>
                  name[i] != ' ' && name[i] != ',' && name[i] != '\U{0007}' && Clean(name[i])
      {
      }
      assert forall c :: c in name ==> c == name[0] || c in name[1..];
      assert forall i :: 1 <= i < |name| ==> name[i] in name;
    }
  }

  lemma FreshIsPlain(freshId: string, name: string)
    requires PlainName(name) && IsSafeID(freshId) && name[1] == '!' && name[2..] != ""
    ensures PlainName("!" + freshId + name[2..])
  {
    var resolved := "!" + freshId + name[2..];
    forall i | 0 <= i < |resolved|
      ensures resolved[i] != ' ' && resolved[i] != ',' && resolved[i] != '\U{0007}' && Clean(resolved[i])
    {
      if 1 <= i <= SAFE_ID_LEN {
        assert resolved[i] == freshId[i - 1];
      } else if i > SAFE_ID_LEN {
        assert resolved[i] == name[i - SAFE_ID_LEN + 1];
        assert name[i - SAFE_ID_LEN + 1] in name;
      }
    }
  }

  lemma FinalIsPlain(w: WorldState, c: Command)
    requires PlainNames(w) && c.Join? && FinalName(w, c).Some?
    ensures PlainName(FinalName(w, c).value)
  {
    hide PlainName;
    ValidIsPlain(c.name, c.maxLen);
    if IsSafe(c.name) && c.name[1] == '!' {
      FreshIsPlain(c.freshId, c.name);
    }
  }

  lemma JoinKeepsNames(w: WorldState, id: UserID, name: string, now: Int64)
    requires PlainNames(w) && PlainName(name)
    ensures PlainNames(w.JoinChannel(id, name, now))
  {
    hide PlainName;
    if id in w.users {
      PlainIsNotEmpty(name);
      JoinedChanShape(w, id, name, now);
    }
  }

  lemma PlainIsNotEmpty(name: string)
    requires PlainName(name)
    ensures name != ""
  {
  }

  lemma JoinOneKeepsNames(w: WorldState, id: UserID, name: string, key: string, now: Int64)
    requires PlainNames(w) && PlainName(name) && id in w.users
    ensures PlainNames(JoinOne(w, id, name, key, now))
  {
    hide PlainName, WorldState.JoinChannel, JoinVerdict;
    if w.FindChannel(name).Some? {
      var after := WithChan(w, w.Key(name), AfterPolicy(w.mapping, w.FindChannel(name).value, w.users[id]));
      assert PlainName(w.chans[w.Key(name)].name);
      JoinKeepsNames(after, w.users[id].id, name, now);
    } else {
      JoinKeepsNames(w, id, name, now);
    }
  }

  lemma PartKeepsNames(w: WorldState, id: UserID, name: string)
    requires PlainNames(w)
    ensures PlainNames(w.PartChannel(id, name))
  {
  }

  lemma ModeKeepsNames(w: WorldState, id: UserID, name: string, params: seq<string>, now: int)
    requires PlainNames(w)
    ensures PlainNames(ModeOne(w, id, name, params, now))
  {
    hide PlainName;
    if w.FindChannel(name).Some? && params != [] {
      LocalRunFrame(w, w.FindChannel(name).value, '+', params[0], params[1..], now);
    }
  }

  lemma OthersKeepNames(w: WorldState, c: Command)
    requires PlainNames(w) && (c.Register? || c.Nick? || c.SetTopic? || c.Invite? || c.Close?)
    ensures PlainNames(Exec(w, c))
  {
    hide PlainName;
  }

  lemma ExecKeepsNames(w: WorldState, c: Command)
    requires PlainNames(w)
    ensures PlainNames(Exec(w, c))
  {
    hide PlainNames;
    match c
    case Join(id, _, key, _, _, _, now) =>
      if id in w.users && FinalName(w, c).Some? {
        FinalIsPlain(w, c);
        JoinOneKeepsNames(w, id, FinalName(w, c).value, key, now);
      }
    case Part(id, name) => PartKeepsNames(w, id, name);
    case Kick(id, name, target) =>
      if w.FindChannel(name).Some? && w.FindByNick(target).Some? {
        PartKeepsNames(w, w.FindByNick(target).value.id, w.FindChannel(name).value.name);
      }
    case Mode(id, name, params, now) => ModeKeepsNames(w, id, name, params, now);
    case _ => OthersKeepNames(w, c);
  }

  /** On a server booted with plain channel names, or none, every run of client commands leaves only channel names
      that a line can carry. */
  lemma {:induction false} NamesStayPlain(s: Server, cs: seq<Command>)
    requires PlainNames(s.w)
    ensures PlainNames(Run(s, cs).w)
    decreases |cs|
  {
    if cs != [] {
      ExecKeepsNames(s.w, cs[0]);
      NamesStayPlain(Do(s, cs[0]), cs[1..]);
    }
  }

  predicate CapitalsOrDigits(s: string) {
    forall i :: 0 <= i < |s| ==> 'A' <= s[i] <= 'Z' || '0' <= s[i] <= '9'
  }

  /** What a join makes of a name: a '#', '&' or '+' name stands for itself, "!!" and a short name for a new safe
      channel with a fresh ID, and any other safe name for itself, if an ID is in it, or for a channel there is. */
  lemma JoinNames(w: WorldState, c: Command, name: string)
    requires c.Join? && FinalName(w, c) == Some(name)
    ensures name[0] == c.name[0] || c.name[0] == '!'
    ensures c.name[0] != '!' ==> name == c.name
    ensures c.name[0] == '!' && c.name[1] == '!' ==>
              name[0] == '!' && |name| == |c.name| + 4 && CapitalsOrDigits(name[1..6]) && name[6..] == c.name[2..]
    ensures |c.name| > 6 && c.name[1] != '!' && CapitalsOrDigits(c.name[1..6]) ==> name == c.name
    ensures c.name[0] == '!' && c.name[1] != '!' && name != c.name ==>
              exists k :: k in w.chans && w.chans[k].name == name && IsSafe(name)
  {
    if c.name[0] == '!' && c.name[1] == '!' {
      assert name[1..6] == c.freshId;
    } else if c.name[0] == '!' && |c.name| >= 6 {
      assert c.name[1..][..5] == c.name[1..6];
    }
  }
}
