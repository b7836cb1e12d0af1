/** The parts of the server that end connections: closing a client, dropping the loser of a collision,
    and recovering from the loss of a peer. */
module Server {
  import opened Prelude
  import opened Message
  import opened State
  import opened FanOut
  import opened Teardown
  import opened SquitFlood
  import opened Steps
  import W = World

  // ----- removing many users -----

  function RemoveSet(w: WorldState, gone: set<UserID>): WorldState {
    w.(users := w.users - gone, nicks := map k | k in w.nicks && w.nicks[k] !in gone :: w.nicks[k])
  }

  lemma RemoveNone(w: WorldState)
    ensures RemoveSet(w, {}) == w
  {
    assert w.users - {} == w.users;
    assert RemoveSet(w, {}).nicks == w.nicks;
  }

  lemma RemoveSetKeeps(w: WorldState, gone: set<UserID>)
    requires w.UsersValid()
    ensures RemoveSet(w, gone).UsersValid()
  {
  }

  lemma RemoveNext(w: WorldState, gone: set<UserID>, id: UserID)
    requires w.UsersValid() && id in w.users && id !in gone
    ensures RemoveSet(w, gone).RemoveUser(id) == RemoveSet(w, gone + {id})
    ensures RemoveSet(w, gone).UsersValid()
  {
    hide WorldState.UsersValid;
    var now, next := RemoveSet(w, gone), RemoveSet(w, gone + {id});
    var k := w.Key(w.users[id].nick);
    W.KeyOfUser(w, id);
    RemoveSetKeeps(w, gone);
    assert now.users - {id} == next.users;
    assert now.nicks - {k} == next.nicks;
  }

  lemma RemoveAllHomed(w: WorldState, gone: set<UserID>, server: string)
    requires w.UsersValid() && forall id :: id in w.users ==> (id in gone <==> w.users[id].homeServer == server)
    ensures RemoveSet(w, gone) == RemoveHomed(w, server)
  {
    assert RemoveSet(w, gone).users == RemoveHomed(w, server).users;
    assert RemoveSet(w, gone).nicks == RemoveHomed(w, server).nicks;
  }

  /** While remote users are removed, the local peers of anyone stay the same, and so do the channels. */
  lemma SameListeners(w: WorldState, gone: set<UserID>, out: seq<Handed>, conns: set<UserID>, sender: UserID)
    requires forall id :: id in gone && id in w.users ==> w.users[id].IsRemote()
    requires ExactlyOnce(out, LocalPeers, RemoveSet(w, gone), conns, sender)
    ensures ExactlyOnce(out, LocalPeers, w, conns, sender)
  {
    var now := RemoveSet(w, gone);
    forall id ensures Peer(now, sender, id) <==> Peer(w, sender, id) {
    }
    forall id
      ensures HandedTo(out, id) <==>
              Eligible(LocalPeers, w, sender, id) && id in conns && exists c :: Share(w, c, sender, id)
    {
      if c :| Share(w, c, sender, id) {
        assert Share(now, c, sender, id);
      }
      if c :| Share(now, c, sender, id) {
        assert Share(w, c, sender, id);
      }
    }
    forall h | h in out ensures exists c :: Share(w, c, sender, h.to) && Masked(LocalPeers, w.chans[c], h.anonymous) {
      var c :| Share(now, c, sender, h.to) && Masked(LocalPeers, now.chans[c], h.anonymous);
      assert Share(w, c, sender, h.to);
    }
  }

  class Server {
    const world: W.World
    /** The user record each connection was registered with, which it keeps even when the world drops it. */
    var conns: map<UserID, W.User>
    /** Connections told to close. */
    var cancelled: set<UserID>
    var squitSeen: Seen
    var links: set<string>

    constructor (world: W.World)
      ensures this.world == world && conns == map[] && cancelled == {} && squitSeen == map[] && links == {}
    {
      this.world := world;
      conns, cancelled, squitSeen, links := map[], {}, map[], {};
    }

    /** Conn.close for a registered connection: the peers hear of it exactly once, every link is told, and
        the world is left as Quit says. */
    method Close(id: UserID) returns (out: seq<Handed>, forwarded: set<string>)
      requires world.Valid() && world.model.UsersValid() && WellNamed(world.model)
      modifies this`conns, world`byChannel, world`model, world`byNick, world`byID, world.byChannel.Values
      ensures world.Valid() && world.model == old(world.model).Quit(id) && conns == old(conns) - {id}
      ensures ExactlyOnce(out, AnyoneElse, old(world.model), old(conns).Keys, id) && forwarded == links
    {
      out := QuitChannels(world, id, conns.Keys);
      forwarded := links;
      PartAllKeepsUsers(old(world.model), id);
      Unregister(id);
    }

    /** The connection leaves the registry and the user record the world. */
    method Unregister(id: UserID)
      requires world.Valid() && world.model.UsersValid()
      modifies this`conns, world`byNick, world`byID, world`model
      ensures world.Valid() && world.model == old(world.model).RemoveUser(id) && conns == old(conns) - {id}
    {
      hide W.World.Valid, WorldState.UsersValid;
      conns := conns - {id};
      Remove(world, id);
    }

    /** Some connection whose user now has exactly this nick is told to close, if there is one. */
    method DropLocalUser(nick: string) returns (target: Option<UserID>)
      modifies this`cancelled
      ensures match target
              case Some(id) => id in conns && conns[id].nick == nick && cancelled == old(cancelled) + {id}
              case None => (forall id :: id in conns ==> conns[id].nick != nick) && cancelled == old(cancelled)
    {
      var todo := conns.Keys;
      while todo != {}
        invariant todo <= conns.Keys && forall id :: id in conns && id !in todo ==> conns[id].nick != nick
      {
        var id :| id in todo;
        todo := todo - {id};
        if conns[id].nick == nick {
          cancelled := cancelled + {id};
          return Some(id);
        }
      }
      target := None;
    }

    /** Drops expired entries, then notes the loss unless it is a repeat. */
    method SquitSeenRecently(loss: Loss, now: int) returns (repeated: bool)
      modifies this`squitSeen
      ensures repeated == IsRepeat(old(squitSeen), loss, now) && squitSeen == Noted(old(squitSeen), loss, now)
    {
      var todo := squitSeen.Keys;
      ghost var before := squitSeen;
      while todo != {}
        invariant todo <= squitSeen.Keys <= before.Keys
        invariant forall k :: k in before ==> (k in squitSeen <==> k in todo || now <= before[k])
        invariant forall k :: k in squitSeen ==> squitSeen[k] == before[k]
      {
        var k :| k in todo;
        todo := todo - {k};
        if now > squitSeen[k] {
          squitSeen := squitSeen - {k};
        }
      }
      assert squitSeen == Purged(before, now);
      if loss in squitSeen && now < squitSeen[loss] {
        return true;
      }
      squitSeen := squitSeen[loss := now + SQUIT_SEEN_TTL];
      repeated := false;
    }

    /** The QUIT shown to local clients for one lost user, and the end of its record. */
    method LoseUser(id: UserID, ghost was: WorldState, ghost gone: set<UserID>) returns (out: seq<Handed>)
      requires world.Valid() && was.UsersValid() && id in was.users && id !in gone
               && world.model == RemoveSet(was, gone)
      requires was.users[id].IsRemote() && forall g :: g in gone && g in was.users ==> was.users[g].IsRemote()
      modifies world`model, world`byNick, world`byID
      ensures world.Valid() && world.model == RemoveSet(was, gone + {id})
      ensures '!' !in was.users[id].nick ==> ExactlyOnce(out, LocalPeers, was, conns.Keys, id)
    {
      hide W.World.Valid, WorldState.UsersValid;
      out := ShowQuit(id, was, gone);
      RemoveNext(was, gone, id);
      Remove(world, id);
    }

    method ShowQuit(id: UserID, ghost was: WorldState, ghost gone: set<UserID>) returns (out: seq<Handed>)
      requires world.Valid() && was.UsersValid() && id in was.users && id !in gone
               && world.model == RemoveSet(was, gone)
      requires was.users[id].IsRemote() && forall g :: g in gone && g in was.users ==> was.users[g].IsRemote()
      ensures '!' !in was.users[id].nick ==> ExactlyOnce(out, LocalPeers, was, conns.Keys, id)
    {
      var u := world.byID[id].State();
      out := DeliverPerUserChannels(world, conns.Keys, u.Hostmask());
      if '!' !in u.nick {
        RemoveNext(was, gone, id);
        FoundAgain(world.model, u);
        SameListeners(was, gone, out, conns.Keys, id);
      }
    }

    /** HandleSquit: every user of the lost peer goes, local clients see each of them quit exactly once, and
        the loss is forwarded on every other link. A repeat does nothing. */
    method HandleSquit(peer: string, why: string, now: int)
      returns (quits: map<UserID, seq<Handed>>, forwarded: set<string>)
      requires world.Valid() && world.model.UsersValid()
      modifies this`squitSeen, world`model, world`byNick, world`byID
      ensures world.Valid()
      ensures var loss := Normal(Loss(peer, why));
              if peer == "" then
                world.model == old(world.model) && squitSeen == old(squitSeen) && forwarded == {} && quits == map[]
              else
                && squitSeen == Noted(old(squitSeen), loss, now)
                && (IsRepeat(old(squitSeen), loss, now) ==>
                      world.model == old(world.model) && forwarded == {} && quits == map[])
                && (!IsRepeat(old(squitSeen), loss, now) ==>
                      && world.model == RemoveHomed(old(world.model), peer) && forwarded == links - {peer}
                      && SeenQuitting(quits, old(world.model), peer, conns.Keys))
    {
      quits, forwarded := map[], {};
      if peer == "" {
        return;
      }
      var reason := if why == "" then "Net split" else why;
      var repeated := SquitSeenRecently(Loss(peer, reason), now);
      if repeated {
        return;
      }
      quits := LoseHomed(peer);
      forwarded := links - {peer};
    }

    /** The loop of HandleSquit over a snapshot of the users. */
    method LoseHomed(peer: string) returns (quits: map<UserID, seq<Handed>>)
      requires world.Valid() && world.model.UsersValid() && peer != ""
      modifies world`model, world`byNick, world`byID
      ensures world.Valid() && world.model == RemoveHomed(old(world.model), peer)
      ensures SeenQuitting(quits, old(world.model), peer, conns.Keys)
    {
      hide W.World.ChansLinked, W.World.NamesMatch, WorldState.UsersValid, Losing;
      ghost var was := world.model;
      ghost var gone: set<UserID> := {};
      var todo := world.byID.Keys;
      quits := map[];
      RemoveNone(was);
      LosingStart(was, peer, conns.Keys);
      while todo != {}
        invariant world.Valid() && world.model == RemoveSet(was, gone)
        invariant todo <= was.users.Keys && Losing(quits, gone, todo, was, peer, conns.Keys)
      {
        var id :| id in todo;
        ghost var left := todo;
        todo := todo - {id};
        assert todo + {id} == left;
        quits, gone := LoseIfHomed(id, peer, was, gone, todo, quits);
      }
      LosingEnd(quits, gone, was, peer, conns.Keys);
    }

    method LoseIfHomed(id: UserID, peer: string, ghost was: WorldState, ghost gone: set<UserID>,
                       ghost todo: set<UserID>,
                       quits: map<UserID, seq<Handed>>) returns (quits': map<UserID, seq<Handed>>,
                       ghost gone': set<UserID>)
      requires world.Valid() && was.UsersValid() && peer != "" && world.model == RemoveSet(was, gone)
      requires id in was.users && id !in todo && Losing(quits, gone, todo + {id}, was, peer, conns.Keys)
      modifies world`model, world`byNick, world`byID
      ensures world.Valid() && world.model == RemoveSet(was, gone')
      ensures Losing(quits', gone', todo, was, peer, conns.Keys)
    {
      hide W.World.ChansLinked, W.World.NamesMatch, WorldState.UsersValid;
      quits', gone' := quits, gone;
      if world.byID[id].homeServer == peer {
        var out := LoseUser(id, was, gone);
        quits' := quits[id := out];
        gone' := gone + {id};
        LostOneMore(quits, gone, todo, was, peer, conns.Keys, id, out);
      } else {
        NotLost(quits, gone, todo, was, peer, conns.Keys, id);
      }
    }
  }

  /** The users of the peer are gone, but for those still to be looked at. */
  ghost predicate Losing(quits: map<UserID, seq<Handed>>, gone: set<UserID>, todo: set<UserID>, w: WorldState,
                         peer: string, conns: set<UserID>)
  {
    && (forall id :: id in gone <==> id in w.users && id !in todo && w.users[id].homeServer == peer)
    && quits.Keys == gone
    && (forall id :: id in gone && '!' !in w.users[id].nick ==> ExactlyOnce(quits[id], LocalPeers, w, conns, id))
  }

  lemma LosingStart(w: WorldState, peer: string, conns: set<UserID>)
    ensures Losing(map[], {}, w.users.Keys, w, peer, conns)
  {
  }

  lemma LosingEnd(quits: map<UserID, seq<Handed>>, gone: set<UserID>, w: WorldState, peer: string, conns: set<UserID>)
    requires w.UsersValid() && Losing(quits, gone, {}, w, peer, conns)
    ensures RemoveSet(w, gone) == RemoveHomed(w, peer) && SeenQuitting(quits, w, peer, conns)
  {
    RemoveAllHomed(w, gone, peer);
  }

  lemma LostOneMore(quits: map<UserID, seq<Handed>>, gone: set<UserID>, todo: set<UserID>, w: WorldState, peer: string,
                    conns: set<UserID>, id: UserID, out: seq<Handed>)
    requires Losing(quits, gone, todo + {id}, w, peer, conns) && id in w.users && id !in todo
             && w.users[id].homeServer == peer
    requires '!' !in w.users[id].nick ==> ExactlyOnce(out, LocalPeers, w, conns, id)
    ensures Losing(quits[id := out], gone + {id}, todo, w, peer, conns)
  {
  }

  lemma NotLost(quits: map<UserID, seq<Handed>>, gone: set<UserID>, todo: set<UserID>, w: WorldState, peer: string,
                conns: set<UserID>, id: UserID)
    requires Losing(quits, gone, todo + {id}, w, peer, conns) && (id in w.users ==> w.users[id].homeServer != peer)
    ensures Losing(quits, gone, todo, w, peer, conns)
  {
  }

  lemma PartAllKeepsUsers(w: WorldState, id: UserID)
    requires w.UsersValid()
    ensures w.PartAll(id).UsersValid()
  {
    SameUsersValid(w, w.PartAll(id));
  }

  /** The channel half of closing a connection. */
  method QuitChannels(w: W.World, id: UserID, conns: set<UserID>) returns (out: seq<Handed>)
    requires w.Valid() && WellNamed(w.model)
    modifies w`byChannel, w`model, w.byChannel.Values
    ensures w.Valid() && w.model == old(w.model).PartAll(id) && ExactlyOnce(out, AnyoneElse, old(w.model), conns, id)
  {
    out := BroadcastQuit(w, id, conns);
    w.UsersUntouched();
  }

  ghost predicate SeenQuitting(quits: map<UserID, seq<Handed>>, w: WorldState, peer: string, conns: set<UserID>) {
    && (forall id :: id in quits <==> id in w.users && w.users[id].homeServer == peer)
    && (forall id :: id in quits && '!' !in w.users[id].nick ==> ExactlyOnce(quits[id], LocalPeers, w, conns, id))
  }

  /** The sender of a user's own prefix is that user. */
  lemma FoundAgain(w: WorldState, u: UserState)
    requires w.UsersValid() && u.id in w.users && w.users[u.id] == u && '!' !in u.nick
    ensures w.FindByNick(SenderOf(u.Hostmask())) == Some(u)
  {
    SenderOfMask(u.nick, (if u.user == "" then u.nick else u.user) + "@"
                 + (if u.host == "" then "unknown" else u.host));
    assert w.nicks[w.Key(u.nick)] == u.id;
  }
}
