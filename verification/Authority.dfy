/** What operators may do and nobody else: over every run of commands of users who are not operators of a channel,
    the channel stays as its operators left it. */
module Authority {
  import opened Prelude
  import opened Numbers
  import opened CaseMap
  import opened State
  import opened ModeSpec
  import opened Clients
  import opened Safety
  import opened ModeMeaning

  // ----- what each command does -----

  /** The world after a member has left the channel, which goes with its last member unless it is a safe one with
      +r. */
  function Without(w: WorldState, name: string, id: UserID): WorldState
    requires w.FindChannel(name).Some?
  {
    var ch := w.FindChannel(name).value;
    if ch.members.Keys <= {id} && !(IsSafe(ch.name) && ch.modes.serverReop) then w.(chans := w.chans - {w.Key(name)})
    else Changed(w, name, ch.(members := ch.members - {id}))
  }

  lemma PartIsWithout(w: WorldState, id: UserID, name: string)
    requires w.Valid() && w.FindChannel(name).Some? && id in w.FindChannel(name).value.members
    ensures w.PartChannel(id, name) == Without(w, name, id)
  {
    var ch := w.FindChannel(name).value;
    SafeByKey(w.mapping, ch.name, name);
    assert (ch.members - {id}).Keys == ch.members.Keys - {id};
    assert |(ch.members - {id}).Keys| == |ch.members - {id}|;
  }

  /** A member leaves; nobody else is moved. */
  lemma PartExactly(w: WorldState, id: UserID, name: string)
    requires w.Valid() && w.FindChannel(name).Some?
    ensures Exec(w, Part(id, name))
         == if id in w.FindChannel(name).value.members then Without(w, name, id) else w
  {
    if id in w.FindChannel(name).value.members {
      PartIsWithout(w, id, name);
    }
  }

  /** A KICK takes the target out if and only if it comes from an operator of the channel and the target is a
      member. */
  lemma KickExactly(w: WorldState, id: UserID, name: string, nick: string)
    requires w.Valid() && w.FindChannel(name).Some? && w.FindByNick(nick).Some?
    ensures var ch, target := w.FindChannel(name).value, w.FindByNick(nick).value.id;
            Exec(w, Kick(id, name, nick))
              == if id in ch.members && ch.members[id].IsOp() && target in ch.members then Without(w, name, target)
                 else w
  {
    var ch, target := w.FindChannel(name).value, w.FindByNick(nick).value.id;
    if id in ch.members && target in ch.members {
      assert w.Key(ch.name) == w.Key(name) && w.FindChannel(ch.name) == Some(ch);
      PartIsWithout(w, target, ch.name);
    }
  }

  /** A topic is set if and only if it comes from a member, under +t from an operator. */
  lemma TopicExactly(w: WorldState, id: UserID, name: string, text: string, now: Int64)
    requires w.FindChannel(name).Some? && id in w.users
    ensures var ch := w.FindChannel(name).value;
            Exec(w, SetTopic(id, name, text, now))
              == if id in ch.members && (ch.modes.topicLocked ==> ch.members[id].IsOp())
                 then Changed(w, name, ch.(topic := Topic(text, w.users[id].Hostmask(), now))) else w
  {
  }

  /** MODE does nothing for anyone but an operator, and nothing at all on a '+' channel. */
  lemma ModeRefused(w: WorldState, id: UserID, name: string, params: seq<string>, now: Int64)
    requires !MaySetModes(w, id, name)
    ensures Exec(w, Mode(id, name, params, now)) == w
  {
  }

  /** Closing takes the user out of every channel and out of the world. A channel goes with its last member unless
      it is a safe one with +r, and all others only lose the member. */
  lemma CloseExactly(w: WorldState, id: UserID, c: string)
    requires w.Valid() && id in w.users
    ensures var after := Exec(w, Close(id));
            && after.users == w.users - {id} && after.FindByNick(w.users[id].nick).None?
            && (c in after.chans <==>
                  && c in w.chans
                  && var ch := w.chans[c];
                     !(id in ch.members && ch.members.Keys == {id}) || (IsSafe(ch.name) && ch.modes.serverReop))
            && (c in after.chans ==> after.chans[c] == w.chans[c].(members := w.chans[c].members - {id}))
  {
    if c in w.chans {
      var ch := w.chans[c];
      assert |ch.members - {id}| == |(ch.members - {id}).Keys| && (ch.members - {id}).Keys == ch.members.Keys - {id};
    }
  }

  // ----- without the operators -----

  /** The user whose command it is. */
  function Actor(c: Command): Option<UserID> {
    if c.Register? then None else Some(c.id)
  }

  /** `ch` is `was` with nothing changed that takes an operator: the settings, the flags, and the members who have
      been idle. */
  ghost predicate Kept(was: ChanState, ch: ChanState, idle: set<UserID>) {
    && ch.name == was.name && ch.createdAt == was.createdAt && ch.modes == was.modes && ch.key == was.key
    && ch.limit == was.limit && ch.lists == was.lists
    && (was.modes.topicLocked ==> ch.topic == was.topic)
    && (was.modes.inviteOnly ==> ch.invites <= was.invites)
    && (forall id :: id in idle && id in was.members ==> id in ch.members && ch.members[id] == was.members[id])
    && (forall id :: id in ch.members && (ch.members[id].IsOp() || ch.members[id].voice) ==>
          id in was.members && ch.members[id] == was.members[id])
  }

  /** All operators of the channel are idle, and there is one. */
  ghost predicate OperatorsIdle(was: ChanState, idle: set<UserID>) {
    && (forall id :: id in was.members && was.members[id].IsOp() ==> id in idle)
    && exists id :: id in was.members && was.members[id].IsOp()
  }

  ghost predicate KeptAt(w: WorldState, was: ChanState, k: string, idle: set<UserID>) {
    w.Valid() && k in w.chans && Kept(was, w.chans[k], idle)
  }

  lemma ActorIsNoOperator(was: ChanState, ch: ChanState, idle: set<UserID>, id: UserID)
    requires Kept(was, ch, idle) && OperatorsIdle(was, idle) && id !in idle
    ensures !IsMemberOp(ch, id)
    ensures exists op :: op in ch.members && op != id
  {
    var op :| op in was.members && was.members[op].IsOp();
    assert op in ch.members && op != id;
  }

  lemma ChangedKept(w: WorldState, was: ChanState, k: string, idle: set<UserID>, name: string, ch: ChanState)
    requires KeptAt(w, was, k, idle) && w.FindChannel(name).Some? && ch.name == w.FindChannel(name).value.name
    requires w.Key(name) == k ==> Kept(was, ch, idle)
    ensures KeptAt(Changed(w, name, ch), was, k, idle)
  {
    SameUsersValid(w, Changed(w, name, ch));
  }

  lemma LeftKept(was: ChanState, ch: ChanState, idle: set<UserID>, id: UserID)
    requires Kept(was, ch, idle) && id !in idle
    ensures Kept(was, ch.(members := ch.members - {id}), idle)
  {
  }

  lemma WithoutKept(w: WorldState, was: ChanState, k: string, idle: set<UserID>, name: string, id: UserID)
    requires KeptAt(w, was, k, idle) && OperatorsIdle(was, idle) && w.FindChannel(name).Some?
    requires w.Key(name) == k ==> id !in idle
    ensures KeptAt(Without(w, name, id), was, k, idle)
  {
    var ch := w.FindChannel(name).value;
    SameUsersValid(w, Without(w, name, id));
    if w.Key(name) == k {
      ActorIsNoOperator(was, ch, idle, id);
      LeftKept(was, ch, idle, id);
    }
  }

  lemma KickKept(w: WorldState, was: ChanState, k: string, idle: set<UserID>, id: UserID, name: string, nick: string)
    requires KeptAt(w, was, k, idle) && OperatorsIdle(was, idle) && id !in idle
    ensures KeptAt(Exec(w, Kick(id, name, nick)), was, k, idle)
  {
    hide Kept, OperatorsIdle, Without;
    if w.FindChannel(name).Some? && w.FindByNick(nick).Some? {
      KickExactly(w, id, name, nick);
      if w.Key(name) == k {
        ActorIsNoOperator(was, w.FindChannel(name).value, idle, id);
      } else {
        WithoutKept(w, was, k, idle, name, w.FindByNick(nick).value.id);
      }
    }
  }

  lemma PartKept(w: WorldState, was: ChanState, k: string, idle: set<UserID>, id: UserID, name: string)
    requires KeptAt(w, was, k, idle) && OperatorsIdle(was, idle) && id !in idle
    ensures KeptAt(Exec(w, Part(id, name)), was, k, idle)
  {
    hide Kept, OperatorsIdle, Without;
    if w.FindChannel(name).Some? {
      PartExactly(w, id, name);
      WithoutKept(w, was, k, idle, name, id);
    }
  }

  lemma ModeKept(w: WorldState, was: ChanState, k: string, idle: set<UserID>, id: UserID, name: string,
                 params: seq<string>, now: Int64)
    requires KeptAt(w, was, k, idle) && OperatorsIdle(was, idle) && id !in idle
    ensures KeptAt(Exec(w, Mode(id, name, params, now)), was, k, idle)
  {
    hide Kept, OperatorsIdle;
    if MaySetModes(w, id, name) && params != [] {
      var ch := w.FindChannel(name).value;
      if w.Key(name) == k {
        ActorIsNoOperator(was, ch, idle, id);
      } else {
        LocalRunFrame(w, ch, '+', params[0], params[1..], now);
        ChangedKept(w, was, k, idle, name, LocalRun(w, ch, '+', params[0], params[1..], now).ch);
      }
    }
  }

  lemma TopicKept(w: WorldState, was: ChanState, k: string, idle: set<UserID>, id: UserID, name: string, text: string,
                  now: Int64)
    requires KeptAt(w, was, k, idle) && OperatorsIdle(was, idle) && id !in idle
    ensures KeptAt(Exec(w, SetTopic(id, name, text, now)), was, k, idle)
  {
    hide OperatorsIdle;
    if w.FindChannel(name).Some? && id in w.users {
      var ch := w.FindChannel(name).value;
      TopicExactly(w, id, name, text, now);
      if w.Key(name) == k {
        ActorIsNoOperator(was, ch, idle, id);
      }
      if id in ch.members && (ch.modes.topicLocked ==> ch.members[id].IsOp()) {
        ChangedKept(w, was, k, idle, name, ch.(topic := Topic(text, w.users[id].Hostmask(), now)));
      }
    }
  }

  lemma InviteKept(w: WorldState, was: ChanState, k: string, idle: set<UserID>, id: UserID, nick: string, name: string)
    requires KeptAt(w, was, k, idle) && OperatorsIdle(was, idle) && id !in idle
    ensures KeptAt(Exec(w, Invite(id, nick, name)), was, k, idle)
  {
    hide OperatorsIdle;
    if w.FindChannel(name).Some? && w.FindByNick(nick).Some? {
      var ch, target := w.FindChannel(name).value, w.FindByNick(nick).value.id;
      if w.Key(name) == k {
        ActorIsNoOperator(was, ch, idle, id);
      }
      if id in ch.members && target !in ch.members && (ch.modes.inviteOnly ==> ch.members[id].IsOp()) {
        ChangedKept(w, was, k, idle, name, Invited(ch, target));
      }
    }
  }

  /** A joiner of a channel with an operator in it gets no flags. */
  lemma EnteredKept(was: ChanState, ch: ChanState, idle: set<UserID>, id: UserID, safe: bool)
    requires Kept(was, ch, idle) && OperatorsIdle(was, idle) && id !in idle
    ensures Kept(was, Entered(ch, id, false, safe), idle) && Entered(ch, id, false, safe).name == ch.name
  {
    ActorIsNoOperator(was, ch, idle, id);
    assert |ch.members| > 0;
  }

  lemma ArrivalKept(w: WorldState, was: ChanState, k: string, idle: set<UserID>, id: UserID, name: string, now: Int64)
    requires KeptAt(w, was, k, idle) && OperatorsIdle(was, idle) && id !in idle && name != ""
    ensures KeptAt(w.JoinChannel(id, name, now), was, k, idle)
  {
    if id in w.users {
      var after := w.JoinChannel(id, name, now);
      SameUsersValid(w, after);
      JoinedChanShape(w, id, name, now);
      if w.Key(name) == k {
        EnteredKept(was, w.chans[k], idle, id, IsSafe(name));
      }
    }
  }

  lemma PolicyKept(was: ChanState, ch: ChanState, idle: set<UserID>, m: CaseMapping, u: UserState)
    requires Kept(was, ch, idle)
    ensures Kept(was, AfterPolicy(m, ch, u), idle)
  {
  }

  lemma JoinKept(w: WorldState, was: ChanState, k: string, idle: set<UserID>, c: Command)
    requires KeptAt(w, was, k, idle) && OperatorsIdle(was, idle) && c.Join? && c.id !in idle
    ensures KeptAt(Exec(w, c), was, k, idle)
  {
    hide Kept, OperatorsIdle, WorldState.JoinChannel, JoinVerdict;
    if c.id in w.users && FinalName(w, c).Some? {
      var name := FinalName(w, c).value;
      FinalNameNonEmpty(w, c);
      if w.FindChannel(name).None? {
        ArrivalKept(w, was, k, idle, c.id, name, c.now);
      } else {
        var ch := AfterPolicy(w.mapping, w.FindChannel(name).value, w.users[c.id]);
        if w.Key(name) == k {
          PolicyKept(was, w.chans[k], idle, w.mapping, w.users[c.id]);
        }
        ChangedKept(w, was, k, idle, name, ch);
        ArrivalKept(Changed(w, name, ch), was, k, idle, c.id, name, c.now);
      }
    }
  }

  lemma QuitValid(w: WorldState, id: UserID)
    requires w.Valid()
    ensures w.Quit(id).Valid()
  {
    SameUsersValid(w, w.PartAll(id));
    RemoveUserKeeps(w.PartAll(id), id);
    hide WorldState.UsersValid;
    assert forall c :: c in w.Quit(id).chans ==> c in w.chans && w.Quit(id).chans[c].name == w.chans[c].name;
  }

  lemma CloseKept(w: WorldState, was: ChanState, k: string, idle: set<UserID>, id: UserID)
    requires KeptAt(w, was, k, idle) && OperatorsIdle(was, idle) && id !in idle
    ensures KeptAt(Exec(w, Close(id)), was, k, idle)
  {
    hide OperatorsIdle, Kept, WorldState.Valid, WorldState.Quit;
    if id in w.users {
      QuitValid(w, id);
      ActorIsNoOperator(was, w.chans[k], idle, id);
      CloseExactly(w, id, k);
      LeftKept(was, w.chans[k], idle, id);
    }
  }

  lemma UserListKept(w: WorldState, was: ChanState, k: string, idle: set<UserID>, c: Command)
    requires KeptAt(w, was, k, idle) && (c.Register? || c.Nick?)
    ensures KeptAt(Exec(w, c), was, k, idle)
  {
    hide Kept;
    if c.Register? {
      AddUserKeeps(w, c.u);
    } else {
      RenameUserKeeps(w, c.id, c.nick);
    }
  }

  lemma CommandKept(w: WorldState, was: ChanState, k: string, idle: set<UserID>, c: Command)
    requires KeptAt(w, was, k, idle) && OperatorsIdle(was, idle) && (Actor(c).Some? ==> Actor(c).value !in idle)
    ensures KeptAt(Exec(w, c), was, k, idle)
  {
    hide KeptAt, OperatorsIdle, Exec;
    match c
    case Join(_, _, _, _, _, _, _) => JoinKept(w, was, k, idle, c);
    case Part(id, name) => PartKept(w, was, k, idle, id, name);
    case Kick(id, name, target) => KickKept(w, was, k, idle, id, name, target);
    case Mode(id, name, params, now) => ModeKept(w, was, k, idle, id, name, params, now);
    case SetTopic(id, name, text, now) => TopicKept(w, was, k, idle, id, name, text, now);
    case Invite(id, target, name) => InviteKept(w, was, k, idle, id, target, name);
    case Close(id) => CloseKept(w, was, k, idle, id);
    case _ => UserListKept(w, was, k, idle, c);
  }

  lemma {:induction false} RunKept(s: Server, was: ChanState, k: string, idle: set<UserID>, cs: seq<Command>)
    requires KeptAt(s.w, was, k, idle) && OperatorsIdle(was, idle)
    requires forall c :: c in cs && Actor(c).Some? ==> Actor(c).value !in idle
    ensures KeptAt(Run(s, cs).w, was, k, idle)
    decreases |cs|
  {
    hide KeptAt, OperatorsIdle, Exec;
    if cs != [] {
      assert cs[0] in cs && forall c :: c in cs[1..] ==> c in cs;
      CommandKept(s.w, was, k, idle, cs[0]);
      RunKept(Do(s, cs[0]), was, k, idle, cs[1..]);
    }
  }

  /** Whatever users do who are no operators of a channel, and while its operators do nothing: its modes, key, limit
      and lists stay, under +t its topic, under +i nobody new is invited, nobody gains a flag, and nobody leaves
      who has not acted. */
  lemma NothingWithoutOperators(s: Server, k: string, idle: set<UserID>, cs: seq<Command>)
    requires s.w.Valid() && k in s.w.chans && OperatorsIdle(s.w.chans[k], idle)
    requires forall c :: c in cs && Actor(c).Some? ==> Actor(c).value !in idle
    ensures k in Run(s, cs).w.chans && Kept(s.w.chans[k], Run(s, cs).w.chans[k], idle)
  {
    RunKept(s, s.w.chans[k], k, idle, cs);
  }
}
