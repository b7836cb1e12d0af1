/** Safety of the world over every run of local clients: members resolve, closed users leave nothing
    behind, and an empty channel needs an excuse. */
module Safety {
  import opened Numbers
  import opened CaseMap
  import opened State
  import opened ModeSpec
  import opened Clients

  /** The world, and the keys of the channels that were restored at boot and never joined since. */
  datatype Server = Server(w: WorldState, dormant: set<string>)

  predicate MayBeEmpty(ch: ChanState) {
    IsSafe(ch.name) && ch.modes.serverReop
  }

  /** The members of a channel are users of the world. */
  ghost predicate Resolves(w: WorldState, ch: ChanState) {
    forall id :: id in ch.members ==> id in w.users
  }

  ghost predicate ChanSafe(s: Server, c: string)
    requires c in s.w.chans
  {
    var ch := s.w.chans[c];
    && ch.name != "" && s.w.Key(ch.name) == c && Resolves(s.w, ch)
    && (|ch.members| == 0 ==> c in s.dormant || MayBeEmpty(ch))
  }

  ghost predicate Safe(s: Server) {
    s.w.UsersValid() && forall c :: c in s.w.chans ==> ChanSafe(s, c)
  }

  /** A successful join wakes a dormant channel. */
  ghost function Do(s: Server, c: Command): Server {
    var w := Exec(s.w, c);
    var joined := c.Join? && c.id in s.w.users && FinalName(s.w, c).Some?
                  && var k := s.w.Key(FinalName(s.w, c).value); k in w.chans && c.id in w.chans[k].members;
    Server(w, if joined then s.dormant - {s.w.Key(FinalName(s.w, c).value)} else s.dormant)
  }

  ghost function Run(s: Server, cs: seq<Command>): Server
    decreases |cs|
  {
    if cs == [] then s else Run(Do(s, cs[0]), cs[1..])
  }

  // ----- replacing one channel -----

  /** Replacing the channel under one key by one with the same name. */
  lemma PutSafe(s: Server, c: string, ch: ChanState, dormant: set<string>)
    requires Safe(s) && ch.name != "" && s.w.Key(ch.name) == c && Resolves(s.w, ch)
    requires |ch.members| == 0 ==> c in dormant || MayBeEmpty(ch)
    requires s.dormant - {c} <= dormant
    ensures Safe(Server(s.w.(chans := s.w.chans[c := ch]), dormant))
  {
    var s' := Server(s.w.(chans := s.w.chans[c := ch]), dormant);
    SameUsersValid(s.w, s'.w);
    forall k | k in s'.w.chans ensures ChanSafe(s', k) {
      if k != c {
        assert ChanSafe(s, k);
      }
    }
  }

  lemma DropSafe(s: Server, c: string)
    requires Safe(s)
    ensures Safe(Server(s.w.(chans := s.w.chans - {c}), s.dormant))
  {
    var s' := Server(s.w.(chans := s.w.chans - {c}), s.dormant);
    SameUsersValid(s.w, s'.w);
    forall k | k in s'.w.chans ensures ChanSafe(s', k) {
      assert ChanSafe(s, k);
    }
  }

  lemma FoundChannel(s: Server, name: string)
    requires Safe(s) && s.w.FindChannel(name).Some?
    ensures var ch, c := s.w.FindChannel(name).value, s.w.Key(name);
            c in s.w.chans && s.w.chans[c] == ch && ChanSafe(s, c)
  {
    assert ChanSafe(s, s.w.Key(name));
  }

  /** The first character of a name survives folding well enough to tell safe channels apart. */
  lemma SafeByKey(m: CaseMapping, a: string, b: string)
    requires Fold(m, a) == Fold(m, b)
    ensures IsSafe(a) <==> IsSafe(b)
  {
    assert |a| == |Fold(m, a)| && |b| == |Fold(m, b)|;
    if a != "" {
      assert FoldByte(m, a[0]) == Fold(m, a)[0] == Fold(m, b)[0] == FoldByte(m, b[0]);
    }
  }

  // ----- joins and parts -----

  lemma EnteredShape(ch: ChanState, id: UserID, created: bool, safe: bool)
    ensures var now := Entered(ch, id, created, safe);
            now.name == ch.name && now.members.Keys == ch.members.Keys + {id}
  {
    AddedShape(ch, id, created);
    hide ChanState.AddMember;
  }

  lemma AddedShape(ch: ChanState, id: UserID, created: bool)
    ensures var joined := ch.AddMember(id, created);
            joined.name == ch.name && joined.members.Keys == ch.members.Keys + {id}
  {
  }

  lemma JoinedChanShape(w: WorldState, id: UserID, name: string, now: Int64)
    requires name != ""
    ensures var ch := w.JoinedChan(id, name, now);
            && id in ch.members
            && (w.Key(name) in w.chans ==> ch.name == w.chans[w.Key(name)].name)
            && (w.Key(name) in w.chans ==> ch.members.Keys == w.chans[w.Key(name)].members.Keys + {id})
            && (w.Key(name) !in w.chans ==> ch.name == name && ch.members.Keys == {id})
  {
    hide Entered;
    var created := w.Key(name) !in w.chans;
    EnteredShape(if created then NewChan(name, now) else w.chans[w.Key(name)], id, created, IsSafe(name));
    assert id in w.JoinedChan(id, name, now).members.Keys;
  }

  lemma JoinChannelSafe(s: Server, id: UserID, name: string, now: Int64)
    requires Safe(s) && id in s.w.users && name != ""
    ensures Safe(Server(s.w.JoinChannel(id, name, now), s.dormant - {s.w.Key(name)}))
    ensures Safe(Server(s.w.JoinChannel(id, name, now), s.dormant))
  {
    var c := s.w.Key(name);
    var ch := s.w.JoinedChan(id, name, now);
    JoinedChanShape(s.w, id, name, now);
    if c in s.w.chans {
      assert ChanSafe(s, c);
    }
    assert id in ch.members && |ch.members| > 0;
    PutSafe(s, c, ch, s.dormant - {c});
    PutSafe(s, c, ch, s.dormant);
  }

  lemma PartChannelSafe(s: Server, id: UserID, name: string)
    requires Safe(s)
    ensures Safe(Server(s.w.PartChannel(id, name), s.dormant))
  {
    if s.w.FindChannel(name).Some? && id in s.w.chans[s.w.Key(name)].members {
      var c := s.w.Key(name);
      FoundChannel(s, name);
      assert ChanSafe(s, c);
      SafeByKey(s.w.mapping, name, s.w.chans[c].name);
      var ch := s.w.chans[c].RemoveMember(id);
      if |ch.members| == 0 && !(IsSafe(name) && ch.modes.serverReop) {
        DropSafe(s, c);
      } else {
        PutSafe(s, c, ch, s.dormant);
      }
    }
  }

  // ----- commands -----

  lemma UsersGrowSafe(s: Server, w: WorldState)
    requires Safe(s) && w.UsersValid() && w.mapping == s.w.mapping && w.chans == s.w.chans
             && s.w.users.Keys <= w.users.Keys
    ensures Safe(Server(w, s.dormant))
  {
    assert forall id :: id in s.w.users ==> id in w.users;
    forall c | c in w.chans ensures ChanSafe(Server(w, s.dormant), c) {
      assert ChanSafe(s, c);
    }
  }

  /** PartAll takes the user out of a channel, and keeps none it emptied unless it may be empty. */
  lemma PartAllAt(w: WorldState, id: UserID, c: string)
    requires c in w.PartAll(id).chans
    ensures c in w.chans && w.PartAll(id).chans[c] == w.chans[c].RemoveMember(id)
    ensures |w.PartAll(id).chans[c].members| == 0 ==> |w.chans[c].members| == 0 || MayBeEmpty(w.chans[c])
  {
    if id !in w.chans[c].members {
      assert w.chans[c].members - {id} == w.chans[c].members;
    }
  }

  lemma RegisterSafe(s: Server, u: UserState)
    requires Safe(s)
    ensures Safe(Server(s.w.AddUser(u), s.dormant))
  {
    AddUserKeeps(s.w, u);
    UsersGrowSafe(s, s.w.AddUser(u));
  }

  lemma NickSafe(s: Server, id: UserID, nick: string)
    requires Safe(s)
    ensures Safe(Server(s.w.RenameUser(id, nick), s.dormant))
  {
    RenameUserKeeps(s.w, id, nick);
    UsersGrowSafe(s, s.w.RenameUser(id, nick));
  }

  lemma PolicySafe(s: Server, id: UserID, name: string)
    requires Safe(s) && id in s.w.users && s.w.FindChannel(name).Some?
    ensures var c := s.w.Key(name);
            var ch := AfterPolicy(s.w.mapping, s.w.FindChannel(name).value, s.w.users[id]);
            var w := s.w.(chans := s.w.chans[c := ch]);
            Safe(Server(w, s.dormant)) && (id in ch.members ==> Safe(Server(w, s.dormant - {c})))
  {
    var c := s.w.Key(name);
    FoundChannel(s, name);
    var ch := AfterPolicy(s.w.mapping, s.w.chans[c], s.w.users[id]);
    PutSafe(s, c, ch, s.dormant);
    if id in ch.members {
      assert |ch.members| > 0;
      PutSafe(s, c, ch, s.dormant - {c});
    }
  }

  lemma JoinOneSafe(s: Server, id: UserID, name: string, key: string, now: Int64)
    requires Safe(s) && id in s.w.users && name != ""
    ensures var w, c := JoinOne(s.w, id, name, key, now), s.w.Key(name);
            Safe(Server(w, s.dormant))
              && (c in w.chans && id in w.chans[c].members ==> Safe(Server(w, s.dormant - {c})))
  {
    if s.w.FindChannel(name).None? {
      JoinChannelSafe(s, id, name, now);
    } else {
      PolicySafe(s, id, name);
      var c := s.w.Key(name);
      var ch := AfterPolicy(s.w.mapping, s.w.FindChannel(name).value, s.w.users[id]);
      JoinChannelSafe(Server(s.w.(chans := s.w.chans[c := ch]), s.dormant), id, name, now);
    }
  }

  /** A command that leaves the members of one channel as they are and does not take +r from an empty one. */
  lemma SettingsSafe(s: Server, name: string, ch: ChanState)
    requires Safe(s) && s.w.FindChannel(name).Some?
    requires var before := s.w.FindChannel(name).value;
             ch.name == before.name && ch.members.Keys == before.members.Keys && |before.members| > 0
    ensures Safe(Server(s.w.(chans := s.w.chans[s.w.Key(name) := ch]), s.dormant))
  {
    FoundChannel(s, name);
    assert ChanSafe(s, s.w.Key(name));
    assert |ch.members| == |ch.members.Keys|
           && |s.w.FindChannel(name).value.members| == |s.w.FindChannel(name).value.members.Keys|;
    PutSafe(s, s.w.Key(name), ch, s.dormant);
  }

  lemma ModeSafe(s: Server, id: UserID, name: string, params: seq<string>, now: int)
    requires Safe(s)
    ensures Safe(Server(ModeOne(s.w, id, name, params, now), s.dormant))
  {
    if s.w.FindChannel(name).Some? && params != [] {
      var ch := s.w.FindChannel(name).value;
      if !IsModeless(ch.name) && IsMemberOp(ch, id) {
        LocalRunFrame(s.w, ch, '+', params[0], params[1..], now);
        assert |ch.members| > 0;
        SettingsSafe(s, name, LocalRun(s.w, ch, '+', params[0], params[1..], now).ch);
      }
    }
  }

  lemma TopicSafe(s: Server, id: UserID, name: string, text: string, now: int)
    requires Safe(s)
    ensures Safe(Server(TopicOne(s.w, id, name, text, now), s.dormant))
  {
    if s.w.FindChannel(name).Some? && id in s.w.FindChannel(name).value.members && id in s.w.users {
      var ch := s.w.FindChannel(name).value;
      assert |ch.members| > 0;
      SettingsSafe(s, name, ch.(topic := Topic(text, s.w.users[id].Hostmask(), now)));
    }
  }

  lemma InviteSafe(s: Server, id: UserID, target: string, name: string)
    requires Safe(s)
    ensures Safe(Server(InviteOne(s.w, id, target, name), s.dormant))
  {
    if s.w.FindByNick(target).Some? && s.w.FindChannel(name).Some? && id in s.w.FindChannel(name).value.members {
      var ch := s.w.FindChannel(name).value;
      assert |ch.members| > 0;
      SettingsSafe(s, name, ch.(invites := ch.invites + {s.w.FindByNick(target).value.id}));
    }
  }

  lemma CloseSafe(s: Server, id: UserID)
    requires Safe(s)
    ensures Safe(Server(s.w.Quit(id), s.dormant))
  {
    var w := s.w.Quit(id);
    SameUsersValid(s.w, s.w.PartAll(id));
    RemoveUserKeeps(s.w.PartAll(id), id);
    forall c | c in w.chans ensures ChanSafe(Server(w, s.dormant), c) {
      PartAllAt(s.w, id, c);
      assert ChanSafe(s, c);
    }
  }

  lemma DoSafe(s: Server, c: Command)
    requires Safe(s)
    ensures Safe(Do(s, c))
  {
    match c
    case Register(u) => RegisterSafe(s, u);
    case Nick(id, nick) => NickSafe(s, id, nick);
    case Join(id, _, key, _, _, _, now) =>
      if id in s.w.users && FinalName(s.w, c).Some? {
        FinalNameNonEmpty(s.w, c);
        JoinOneSafe(s, id, FinalName(s.w, c).value, key, now);
      }
    case Part(id, name) => PartChannelSafe(s, id, name);
    case Kick(id, name, target) => KickSafe(s, id, name, target);
    case Mode(id, name, params, now) => ModeSafe(s, id, name, params, now);
    case SetTopic(id, name, text, now) => TopicSafe(s, id, name, text, now);
    case Invite(id, target, name) => InviteSafe(s, id, target, name);
    case Close(id) => CloseSafe(s, id);
  }

  lemma FinalNameNonEmpty(w: WorldState, c: Command)
    requires c.Join? && FinalName(w, c).Some?
    ensures FinalName(w, c).value != ""
  {
  }

  lemma KickSafe(s: Server, id: UserID, name: string, targetNick: string)
    requires Safe(s)
    ensures Safe(Server(KickOne(s.w, id, name, targetNick), s.dormant))
  {
    if s.w.FindChannel(name).Some? && s.w.FindByNick(targetNick).Some? {
      PartChannelSafe(s, s.w.FindByNick(targetNick).value.id, s.w.FindChannel(name).value.name);
    }
  }

  // ----- whole runs -----

  lemma {:induction false} RunSafe(s: Server, cs: seq<Command>)
    requires Safe(s)
    ensures Safe(Run(s, cs))
    decreases |cs|
  {
    if cs != [] {
      DoSafe(s, cs[0]);
      RunSafe(Do(s, cs[0]), cs[1..]);
    }
  }

  /** A freshly booted server: no users, and the channels of the store, all empty. */
  ghost predicate Booted(s: Server) {
    && s.w.users == map[] && s.w.nicks == map[]
    && s.dormant == s.w.chans.Keys
    && forall c :: c in s.w.chans ==>
       s.w.chans[c].name != "" && s.w.Key(s.w.chans[c].name) == c && s.w.chans[c].members == map[]
  }

  /** After any run of client commands on a booted server every member of every channel is a user, and
      an empty channel is a safe one with +r or was restored and never joined since. */
  lemma WorldStaysSafe(s: Server, cs: seq<Command>)
    requires Booted(s)
    ensures var end := Run(s, cs);
            && end.w.UsersValid()
            && (forall c, id :: c in end.w.chans && id in end.w.chans[c].members ==> id in end.w.users)
            && (forall c :: c in end.w.chans && end.w.chans[c].members == map[] ==>
               c in end.dormant || MayBeEmpty(end.w.chans[c]))
  {
    assert Safe(s);
    RunSafe(s, cs);
    var end := Run(s, cs);
    forall c | c in end.w.chans
      ensures Resolves(end.w, end.w.chans[c])
              && (end.w.chans[c].members == map[] ==> c in end.dormant || MayBeEmpty(end.w.chans[c]))
    {
      assert ChanSafe(end, c);
    }
  }

  // ----- user IDs are never reused -----

  ghost predicate Gone(w: WorldState, id: UserID) {
    id <= w.lastId && id !in w.users
  }

  lemma JoinOneKeepsUsers(w: WorldState, id: UserID, name: string, key: string, now: Int64)
    requires id in w.users
    ensures SameUsers(w, JoinOne(w, id, name, key, now))
  {
  }

  lemma PartKeepsUsers(w: WorldState, id: UserID, name: string)
    ensures SameUsers(w, w.PartChannel(id, name))
  {
  }

  lemma SettingsKeepUsers(w: WorldState, c: Command)
    requires c.Mode? || c.SetTopic? || c.Invite?
    ensures SameUsers(w, Exec(w, c))
  {
  }

  lemma UserCommandKeepsGone(w: WorldState, c: Command, id: UserID)
    requires Gone(w, id) && (c.Register? || c.Nick? || c.Close?)
    ensures Gone(Exec(w, c), id)
  {
  }

  lemma DoKeepsGone(s: Server, c: Command, id: UserID)
    requires Safe(s) && Gone(s.w, id)
    ensures Gone(Do(s, c).w, id)
  {
    hide Safe;
    match c
    case Join(_, _, _, _, _, _, _) =>
      if c.id in s.w.users && FinalName(s.w, c).Some? {
        JoinOneKeepsUsers(s.w, c.id, FinalName(s.w, c).value, c.key, c.now);
      }
    case Part(_, name) => PartKeepsUsers(s.w, c.id, name);
    case Kick(_, name, target) =>
      if s.w.FindChannel(name).Some? && s.w.FindByNick(target).Some? {
        PartKeepsUsers(s.w, s.w.FindByNick(target).value.id, s.w.FindChannel(name).value.name);
      }
    case Mode(_, _, _, _) => SettingsKeepUsers(s.w, c);
    case SetTopic(_, _, _, _) => SettingsKeepUsers(s.w, c);
    case Invite(_, _, _) => SettingsKeepUsers(s.w, c);
    case _ => UserCommandKeepsGone(s.w, c, id);
  }

  lemma {:induction false} RunKeepsGone(s: Server, cs: seq<Command>, id: UserID)
    requires Safe(s) && Gone(s.w, id)
    ensures Gone(Run(s, cs).w, id)
    decreases |cs|
  {
    if cs != [] {
      DoSafe(s, cs[0]);
      DoKeepsGone(s, cs[0], id);
      RunKeepsGone(Do(s, cs[0]), cs[1..], id);
    }
  }

  /** Once a connection has closed, its user is in no channel, whatever happens afterwards. */
  lemma ClosedUserIsGone(s: Server, before: seq<Command>, id: UserID, after: seq<Command>)
    requires Booted(s) && id in Run(s, before).w.users
    ensures var end := Run(Do(Run(s, before), Close(id)), after);
            id !in end.w.users && forall c :: c in end.w.chans ==> id !in end.w.chans[c].members
  {
    assert Safe(s);
    RunSafe(s, before);
    var mid := Do(Run(s, before), Close(id));
    DoSafe(Run(s, before), Close(id));
    RunKeepsGone(mid, after, id);
    RunSafe(mid, after);
    var end := Run(mid, after);
    forall c | c in end.w.chans ensures id !in end.w.chans[c].members {
      assert ChanSafe(end, c);
    }
  }
}
