/** One federation link: the handlers that take a peer's messages into the world. */
module Link {
  import opened Prelude
  import opened Numbers
  import opened Message
  import opened State
  import opened ModeSpec
  import opened FedSpec
  import opened Channel
  import opened ModeHandlers
  import W = World
  import opened Steps

  class Link {
    const world: W.World
    const localName: string
    const peerName: string
    /** The messages sent to the peer, and the local users the host was told to disconnect. */
    var sent: seq<Message>
    var dropped: seq<string>

    constructor (world: W.World, localName: string, peerName: string)
      ensures this.world == world && this.localName == localName && this.peerName == peerName
      ensures sent == [] && dropped == []
    {
      this.world, this.localName, this.peerName := world, localName, peerName;
      sent, dropped := [], [];
    }

    /** The link and its world have reacted. */
    twostate predicate Did(r: Reaction)
      reads this, world, world.byID.Values, world.byChannel.Values
    {
      world.Valid() && world.model == r.w && sent == old(sent) + r.sent && dropped == old(dropped) + r.drops
    }

    // ----- users -----

    method Send(msg: Message)
      modifies this`sent
      ensures sent == old(sent) + [msg]
    {
      sent := sent + [msg];
    }

    /** A nick announcement, with its collision cases. */
    method HandleAnnounce(u: UserState)
      requires world.Valid() && world.model.UsersValid()
      modifies this`sent, this`dropped, world`byNick, world`byID, world`lastId, world`model
      ensures Did(Announce(old(world.model), localName, u))
    {
      hide W.World.UsersLinked, W.World.ChansLinked, WorldState.UsersValid;
      var existing := Lookup(world, u.nick);
      if existing.None? {
        assert sent + [] == sent && dropped + [] == dropped;
        Add(world, u);
      } else {
        Collide(u, existing.value);
      }
    }

    method Collide(u: UserState, holder: UserState)
      requires world.Valid() && world.model.UsersValid() && world.model.FindByNick(u.nick) == Some(holder)
      modifies this`sent, this`dropped, world`byNick, world`byID, world`lastId, world`model
      ensures Did(Announce(old(world.model), localName, u))
    {
      hide W.World.UsersLinked, W.World.ChansLinked, WorldState.UsersValid;
      assert sent + [] == sent && dropped + [] == dropped;
      if u.ts != 0 && holder.ts != 0 && u.ts == holder.ts {
        BothLose(u, holder);
      } else if u.ts != 0 && holder.ts != 0 && u.ts > holder.ts {
        Send(Kill(localName, u.nick, "Nick collision (TS lost)"));
      } else {
        Displace(u, holder);
      }
    }

    method BothLose(u: UserState, holder: UserState)
      requires world.Valid() && world.model.UsersValid()
      modifies this`sent, this`dropped, world`byNick, world`byID, world`model
      ensures world.Valid() && world.model == old(world.model).RemoveUser(holder.id)
      ensures sent == old(sent) + [Kill(localName, u.nick, "Nick collision (equal TS, both lose)")]
      ensures dropped == old(dropped) + DropIfLocal(holder)
    {
      hide W.World.UsersLinked, W.World.ChansLinked, WorldState.UsersValid;
      Send(Kill(localName, u.nick, "Nick collision (equal TS, both lose)"));
      Evict(holder);
    }

    method Displace(u: UserState, holder: UserState)
      requires world.Valid() && world.model.UsersValid()
      modifies this`dropped, world`byNick, world`byID, world`lastId, world`model
      ensures world.Valid() && world.model == old(world.model).RemoveUser(holder.id).AddUser(u)
      ensures dropped == old(dropped) + DropIfLocal(holder)
    {
      hide W.World.UsersLinked, W.World.ChansLinked, WorldState.UsersValid;
      Evict(holder);
      Add(world, u);
    }

    /** The holder of a nick loses its record, and its connection if it has one here. */
    method Evict(holder: UserState)
      requires world.Valid() && world.model.UsersValid()
      modifies this`dropped, world`byNick, world`byID, world`model
      ensures world.Valid() && world.model.UsersValid() && world.model == old(world.model).RemoveUser(holder.id)
      ensures dropped == old(dropped) + DropIfLocal(holder)
    {
      hide W.World.UsersLinked, W.World.ChansLinked, WorldState.UsersValid;
      dropped := dropped + DropIfLocal(holder);
      Remove(world, holder.id);
    }

    method HandleRemoteNick(msg: Message)
      requires world.Valid() && world.model.UsersValid()
      modifies this`sent, this`dropped, world`byNick, world`byID, world`lastId, world`model, world.byID.Values
      ensures Did(RemoteNick(old(world.model), localName, msg))
    {
      hide W.World.UsersLinked, W.World.ChansLinked, WorldState.UsersValid;
      assert sent + [] == sent && dropped + [] == dropped;
      if |msg.params| == 1 && msg.prefix != "" {
        var u := Lookup(world, SenderOf(msg.prefix));
        if u.None? || !u.value.IsRemote() {
          return;
        }
        Rename(world, u.value.id, msg.params[0]);
        return;
      }
      if |msg.params| < 7 {
        return;
      }
      HandleAnnounce(AnnouncedUser(msg.params));
    }

    method HandleRemoteService(msg: Message, now: Int64)
      requires world.Valid() && world.model.UsersValid()
      modifies world`byNick, world`byID, world`lastId, world`model
      ensures world.Valid() && world.model == RemoteService(old(world.model), peerName, msg, now)
    {
      hide W.World.UsersLinked, W.World.ChansLinked, WorldState.UsersValid;
      if |msg.params| < 6 {
        return;
      }
      var server := SenderOf(msg.prefix);
      if server == "" {
        server := peerName;
      }
      var existing := Lookup(world, msg.params[0]);
      if existing.Some? {
        return;
      }
      Add(world, UserState(0, msg.params[0], "service", server, msg.params[5], "", true, server, now, true,
                           msg.params[3], msg.params[2]));
    }

    method HandleRemoteQuit(msg: Message)
      requires world.Valid() && world.model.UsersValid()
      modifies world`byNick, world`byID, world`model
      ensures world.Valid() && world.model == RemoteQuit(old(world.model), msg)
    {
      hide W.World.UsersLinked, W.World.ChansLinked, WorldState.UsersValid;
      var u := Lookup(world, SenderOf(msg.prefix));
      if u.None? || !u.value.IsRemote() {
        return;
      }
      Remove(world, u.value.id);
    }

    method HandleRemoteKill(msg: Message)
      requires world.Valid() && world.model.UsersValid()
      modifies this`dropped, world`byNick, world`byID, world`model
      ensures Did(RemoteKill(old(world.model), msg))
    {
      hide W.World.UsersLinked, W.World.ChansLinked, WorldState.UsersValid;
      assert sent + [] == sent && dropped + [] == dropped;
      if |msg.params| < 2 {
        return;
      }
      var target := Lookup(world, msg.params[0]);
      if target.None? {
        return;
      }
      if target.value.IsRemote() {
        Remove(world, target.value.id);
        return;
      }
      dropped := dropped + [target.value.nick];
    }

    // ----- channels -----

    /** A member's arrival, and the older timestamp it may bring. */
    method HandleRemoteJoin(msg: Message, now: Int64)
      requires world.Valid()
      modifies world`byChannel, world`model, world.byChannel.Values
      ensures world.Valid() && world.model == RemoteJoin(old(world.model), msg, now)
      ensures forall ch :: ch in world.byChannel.Values ==> ch in old(world.byChannel.Values) || fresh(ch)
    {
      if |msg.params| < 1 {
        return;
      }
      var u := Lookup(world, SenderOf(msg.prefix));
      if u.None? || !u.value.IsRemote() {
        return;
      }
      Join(world, u.value.id, msg.params[0], now);
      if |msg.params| >= 2 {
        var ts := ParseInt(msg.params[1]);
        if ts.Some? && ts.value > 0 {
          AdoptTS(msg.params[0], ts.value);
        }
      }
    }

    method AdoptTS(name: string, ts: Int64)
      requires world.Valid()
      modifies world`model, world.byChannel.Values
      ensures world.Valid() && world.byChannel == old(world.byChannel)
      ensures world.model == match old(world.model).FindChannel(name)
                             case None => old(world.model)
                             case Some(ch) => WithChan(old(world.model), world.model.Key(name), Older(ch, ts))
    {
      hide W.World.RecordsMatch, W.World.NamesMatch;
      var ch := world.FindChannel(name);
      if ch == null {
        return;
      }
      AdoptOn(ch, ts);
      world.Refresh(world.model.Key(name));
      world.UsersUntouched();
    }

    method AdoptOn(ch: Channel, ts: Int64)
      modifies ch
      ensures ch.State() == Older(old(ch.State()), ts)
    {
      var adopted := ch.AdoptOlderTS(ts);
      if adopted {
        ch.ResetMembershipFlags();
      }
    }

    method HandleRemotePart(msg: Message)
      requires world.Valid()
      modifies world`byChannel, world`model, world.byChannel.Values
      ensures world.Valid() && world.model == RemotePart(old(world.model), msg)
    {
      if |msg.params| < 1 {
        return;
      }
      var u := Lookup(world, SenderOf(msg.prefix));
      if u.None? || !u.value.IsRemote() {
        return;
      }
      Part(world, u.value.id, msg.params[0]);
    }

    method HandleRemoteKick(msg: Message)
      requires world.Valid()
      modifies world`byChannel, world`model, world.byChannel.Values
      ensures world.Valid() && world.model == RemoteKick(old(world.model), msg)
    {
      if |msg.params| < 2 {
        return;
      }
      var victim := Lookup(world, msg.params[1]);
      if victim.None? {
        return;
      }
      Part(world, victim.value.id, msg.params[0]);
    }

    method HandleRemoteTopic(msg: Message, now: Int64)
      requires world.Valid()
      modifies world`model, world.byChannel.Values
      ensures world.Valid() && world.model == RemoteTopic(old(world.model), msg, now)
    {
      if |msg.params| < 2 {
        return;
      }
      var ch := world.FindChannel(msg.params[0]);
      if ch == null {
        return;
      }
      SetTopicOf(world, ch, world.model.Key(msg.params[0]), msg.params[1], msg.prefix, now);
    }

    method HandleRemoteMode(msg: Message, now: Int64)
      requires world.Valid()
      modifies world`model, world.byChannel.Values
      ensures world.Valid() && world.model == RemoteMode(old(world.model), msg, now)
    {
      if |msg.params| < 2 {
        return;
      }
      var target := msg.params[0];
      if |target| == 0 || (target[0] != '#' && target[0] != '&') {
        return;
      }
      var ch := world.FindChannel(target);
      if ch == null {
        return;
      }
      assert msg.params[1..][1..] == msg.params[2..];
      ApplyModes(ch, target, msg.params[1..], now);
    }

    method ApplyModes(ch: Channel, name: string, params: seq<string>, now: Int64)
      requires world.Valid() && world.model.Key(name) in world.byChannel && world.byChannel[world.model.Key(name)] == ch
      requires params != []
      modifies world`model, ch
      ensures world.Valid()
      ensures world.model == WithChan(old(world.model), world.model.Key(name),
                                        RemoteRun(old(world.model), old(ch.State()), '+', params[0], params[1..], now))
    {
      hide W.World.RecordsMatch, W.World.NamesMatch;
      ApplyRemoteChannelMode(world, ch, params, now);
      world.Refresh(world.model.Key(name));
      world.UsersUntouched();
    }

    // ----- dispatch -----

    method DispatchChannel(msg: Message, now: Int64)
      requires world.Valid() && VerbOf(msg.command) in {JoinVerb, PartVerb, KickVerb, TopicVerb, ModeVerb}
      modifies world`byChannel, world`model, world.byChannel.Values
      ensures world.Valid() && Quietly(world.model) == Handle(old(world.model), localName, peerName, msg, now)
    {
      match VerbOf(msg.command) {
        case JoinVerb => HandleRemoteJoin(msg, now);
        case PartVerb => HandleRemotePart(msg);
        case KickVerb => HandleRemoteKick(msg);
        case TopicVerb => HandleRemoteTopic(msg, now);
        case ModeVerb => HandleRemoteMode(msg, now);
      }
    }

    method DispatchUser(msg: Message, now: Int64)
      requires world.Valid() && world.model.UsersValid()
               && VerbOf(msg.command) in {NickVerb, ServiceVerb, QuitVerb, KillVerb}
      modifies this`sent, this`dropped, world`byNick, world`byID, world`lastId, world`model, world.byID.Values
      ensures Did(Handle(old(world.model), localName, peerName, msg, now))
    {
      assert sent + [] == sent && dropped + [] == dropped;
      match VerbOf(msg.command) {
        case NickVerb => HandleRemoteNick(msg);
        case ServiceVerb => HandleRemoteService(msg, now);
        case QuitVerb => HandleRemoteQuit(msg);
        case KillVerb => HandleRemoteKill(msg);
      }
    }

    /** The answer to a PING. */
    function Pong(params: seq<string>): Message {
      Plain(localName, "PONG", [localName, if params != [] then params[0] else localName])
    }

    method DispatchWorld(msg: Message, now: Int64)
      requires world.Valid() && world.model.UsersValid()
      modifies this`sent, this`dropped, world`byNick, world`byID, world`lastId, world`byChannel, world`model,
               world.byID.Values, world.byChannel.Values
      ensures Did(Handle(old(world.model), localName, peerName, msg, now))
    {
      assert sent + [] == sent && dropped + [] == dropped;
      var verb := VerbOf(msg.command);
      if verb in {NickVerb, ServiceVerb, QuitVerb, KillVerb} {
        DispatchUser(msg, now);
      } else if verb != OtherVerb {
        DispatchChannel(msg, now);
      }
    }

    /** One message from the peer, the handshake and SQUIT aside. */
    method Dispatch(msg: Message, now: Int64)
      requires world.Valid() && world.model.UsersValid()
      modifies this`sent, this`dropped, world`byNick, world`byID, world`lastId, world`byChannel, world`model,
               world.byID.Values, world.byChannel.Values
      ensures msg.command == "PING" ==> Did(Reaction(old(world.model), [Pong(msg.params)], []))
      ensures msg.command != "PING" ==> Did(Handle(old(world.model), localName, peerName, msg, now))
    {
      if msg.command == "PING" {
        assert dropped + [] == dropped;
        Send(Pong(msg.params));
      } else {
        DispatchWorld(msg, now);
      }
    }
  }
}
