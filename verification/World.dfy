/** The mutable state of one node: user records under two indexes, channels under one. Each method
    does to the objects what the matching function of State.dfy does to the abstract world. */
module World {
  import opened Prelude
  import opened Numbers
  import opened CaseMap
  import opened State
  import opened Channel

  class User {
    var id: UserID
    var nick: string
    var user: string
    var host: string
    var realname: string
    var modes: string
    var registered: bool
    var homeServer: string
    var ts: Int64
    var service: bool
    var serviceType: string
    var serviceDistribution: string

    function State(): UserState
      reads this
    {
      UserState(id, nick, user, host, realname, modes, registered, homeServer, ts, service, serviceType,
        serviceDistribution)
    }

    /** A record not yet in any world. */
    constructor (u: UserState)
      ensures State() == u
    {
      id, nick, user, host, realname, modes := u.id, u.nick, u.user, u.host, u.realname, u.modes;
      registered, homeServer, ts := u.registered, u.homeServer, u.ts;
      service, serviceType, serviceDistribution := u.service, u.serviceType, u.serviceDistribution;
    }
  }

  class World {
    const mapping: CaseMapping
    var byNick: map<string, User>
    var byID: map<UserID, User>
    var byChannel: map<string, Channel>
    var lastId: UserID

    /** The abstract world these objects stand for. */
    ghost var model: WorldState

    /** The ID index holds the records of the model's users, each under its own ID. */
    ghost predicate RecordsMatch()
      reads this`byID, this`model, byID.Values
    {
      && byID.Keys == model.users.Keys
      && (forall id :: id in byID ==> byID[id].id == id && byID[id].State() == model.users[id])
    }

    /** The nick index leads to the same objects. */
    ghost predicate NamesMatch()
      reads this`byNick, this`byID, this`model
    {
      && byNick.Keys == model.nicks.Keys
      && (forall k :: k in byNick ==> model.nicks[k] in byID && byNick[k] == byID[model.nicks[k]])
    }

    /** No channel object is filed twice. */
    ghost predicate Distinct()
      reads this`byChannel
    {
      forall c, d :: c in byChannel && d in byChannel && byChannel[c] == byChannel[d] ==> c == d
    }

    /** The channel index holds the model's channels. */
    ghost predicate ChansMatch()
      reads this`byChannel, this`model, byChannel.Values
    {
      && (forall d :: d in byChannel <==> d in model.chans)
      && (forall c :: c in byChannel ==> byChannel[c].State() == model.chans[c])
    }

    /** The channel half of the world. */
    ghost predicate ChansLinked()
      reads this`byChannel, this`model, byChannel.Values
    {
      ChansMatch() && Distinct()
    }

    /** The user half of the world. */
    ghost predicate UsersLinked()
      reads this`byNick, this`byID, this`model, this`lastId, byID.Values
    {
      mapping == model.mapping && lastId == model.lastId && RecordsMatch() && NamesMatch()
    }

    ghost predicate Valid()
      reads this, byID.Values, byChannel.Values
    {
      UsersLinked() && ChansLinked()
    }

    /** The user half does not depend on the channels. */
    twostate lemma UsersUntouched()
      requires old(UsersLinked()) && unchanged(`byNick) && unchanged(`byID) && unchanged(`lastId)
      requires forall u :: u in byID.Values ==> unchanged(u)
      requires SameUsers(old(model), model)
      ensures UsersLinked()
    {
      forall id | id in byID ensures byID[id].id == id && byID[id].State() == model.users[id] {
        assert byID[id] in byID.Values && unchanged(byID[id]);
        assert old(byID[id].id == id && byID[id].State() == model.users[id]);
      }
    }

    /** The channel half does not depend on the users. */
    twostate lemma ChansUntouched()
      requires old(ChansLinked()) && unchanged(`byChannel) && model.chans == old(model).chans
      requires forall ch :: ch in byChannel.Values ==> unchanged(ch)
      ensures ChansLinked()
    {
      forall c | c in byChannel ensures byChannel[c].State() == model.chans[c] {
        assert byChannel[c] in byChannel.Values && unchanged(byChannel[c]);
        assert old(byChannel[c].State() == model.chans[c]);
      }
    }

    constructor (mapping: CaseMapping)
      ensures Valid() && model == NewWorld(mapping)
    {
      this.mapping := mapping;
      byNick, byID, byChannel := map[], map[], map[];
      lastId := 0;
      model := NewWorld(mapping);
    }

    // ----- users -----

    method FindByNick(nick: string) returns (u: User?)
      requires UsersLinked()
      ensures u != null ==> u.id in byID && byID[u.id] == u && model.FindByNick(nick) == Some(u.State())
      ensures u == null ==> model.FindByNick(nick) == None
    {
      if nick == "" {
        return null;
      }
      var key := FoldLoop(mapping, nick);
      u := if key in byNick then byNick[key] else null;
    }

    method PutRecord(u: User)
      requires RecordsMatch() && NamesMatch() && u !in byID.Values && lastId + 1 !in byID
      modifies this`byID, this`lastId, this`model, u`id
      ensures RecordsMatch() && NamesMatch() && lastId == old(lastId) + 1 && u.id == lastId
      ensures model == old(model).(users := old(model).users[lastId := old(u.State()).(id := lastId)], lastId := lastId)
      ensures byID == old(byID)[lastId := u]
    {
      lastId := lastId + 1;
      u.id := lastId;
      model := model.(users := model.users[lastId := u.State()], lastId := lastId);
      byID := byID[lastId := u];
    }

    /** The index updates of AddUser. */
    method FileUser(u: User, key: string)
      requires UsersLinked() && u !in byID.Values && lastId + 1 !in byID
      modifies this`byNick, this`byID, this`lastId, this`model, u`id
      ensures UsersLinked() && u.id == lastId && byID == old(byID)[lastId := u]
      ensures model == Added(old(model), old(u.State()), key)
    {
      PutRecord(u);
      PutName(key, u);
    }

    method PutName(key: string, u: User)
      requires RecordsMatch() && NamesMatch() && u.id in byID && byID[u.id] == u
      modifies this`byNick, this`model
      ensures RecordsMatch() && NamesMatch() && model == old(model).(nicks := old(model).nicks[key := u.id])
    {
      model := model.(nicks := model.nicks[key := u.id]);
      byNick := byNick[key := u];
    }

    method AddUser(u: User) returns (ok: bool)
      requires UsersLinked() && model.UsersValid() && u !in byID.Values
      modifies this`byNick, this`byID, this`lastId, this`model, u
      ensures UsersLinked() && ok == old(model).CanAdd(old(u.State())) && model == old(model).AddUser(old(u.State()))
      ensures byID == if ok then old(byID)[lastId := u] else old(byID)
      ensures !ok ==> u.State() == old(u.State())
    {
      var key := FoldLoop(mapping, u.nick);
      if u.nick == "" || key in byNick {
        return false;
      }
      AddMeans(model, u.State());
      FileUser(u, key);
      ok := true;
    }

    method DropName(key: string)
      requires NamesMatch()
      modifies this`byNick, this`model
      ensures NamesMatch() && model == old(model).(nicks := old(model).nicks - {key})
    {
      model := model.(nicks := model.nicks - {key});
      byNick := byNick - {key};
    }

    method DropRecord(id: UserID)
      requires RecordsMatch() && NamesMatch()
      requires forall k :: k in model.nicks ==> model.nicks[k] != id
      modifies this`byID, this`model
      ensures RecordsMatch() && NamesMatch() && model == old(model).(users := old(model).users - {id})
      ensures byID == old(byID) - {id}
    {
      model := model.(users := model.users - {id});
      byID := byID - {id};
    }

    method RemoveUser(id: UserID) returns (ok: bool)
      requires UsersLinked() && model.UsersValid()
      modifies this`byNick, this`byID, this`model
      ensures UsersLinked() && ok == (id in old(byID)) && model == old(model).RemoveUser(id)
      ensures byID == old(byID) - {id}
    {
      hide NamesMatch, WorldState.UsersValid;
      if id !in byID {
        assert byID - {id} == byID;
        return false;
      }
      KeyOfUser(model, id);
      var u := byID[id];
      var key := FoldLoop(mapping, u.nick);
      DropName(key);
      DropRecord(id);
      ok := true;
    }

    method SetNick(u: User, newNick: string)
      requires RecordsMatch() && u.id in byID && byID[u.id] == u
      modifies this`model, u`nick
      ensures RecordsMatch()
              && model == old(model).(users := old(model).users[u.id := old(u.State()).(nick := newNick)])
    {
      u.nick := newNick;
      model := model.(users := model.users[u.id := u.State()]);
    }

    /** The index updates of RenameUser when the key changes. */
    method MoveName(u: User, oldKey: string, newKey: string, newNick: string)
      requires RecordsMatch() && NamesMatch() && u.id in byID && byID[u.id] == u
      modifies this`byNick, this`model, u`nick
      ensures RecordsMatch() && NamesMatch()
      ensures model == Renamed(old(model), old(u.State()), newNick, (old(model).nicks - {oldKey})[newKey := u.id])
    {
      DropName(oldKey);
      SetNick(u, newNick);
      PutName(newKey, u);
    }

    /** The index updates of RenameUser. */
    method RefileUser(u: User, oldKey: string, newKey: string, newNick: string)
      requires RecordsMatch() && NamesMatch() && u.id in byID && byID[u.id] == u
      requires oldKey in model.nicks && model.nicks[oldKey] == u.id
      modifies this`byNick, this`model, u`nick
      ensures RecordsMatch() && NamesMatch()
      ensures model == Renamed(old(model), old(u.State()), newNick, (old(model).nicks - {oldKey})[newKey := u.id])
    {
      if oldKey == newKey {
        SetNick(u, newNick);
        assert (model.nicks - {oldKey})[newKey := u.id] == model.nicks;
      } else {
        MoveName(u, oldKey, newKey, newNick);
      }
    }

    /** The checks of RenameUser. */
    method MayRename(id: UserID, newNick: string) returns (may: bool)
      requires UsersLinked()
      ensures may == model.CanRename(id, newNick)
    {
      if newNick == "" || id !in byID {
        return false;
      }
      var oldKey := FoldLoop(mapping, byID[id].nick);
      var newKey := FoldLoop(mapping, newNick);
      may := oldKey == newKey || newKey !in byNick;
    }

    method RenameUser(id: UserID, newNick: string) returns (ok: bool)
      requires UsersLinked() && model.UsersValid()
      modifies this`byNick, this`model, byID.Values
      ensures UsersLinked() && ok == old(model).CanRename(id, newNick) && model == old(model).RenameUser(id, newNick)
    {
      hide WorldState.UsersValid, NamesMatch;
      ok := MayRename(id, newNick);
      if !ok {
        return;
      }
      var u := byID[id];
      var oldKey := FoldLoop(mapping, u.nick);
      var newKey := FoldLoop(mapping, newNick);
      RenameMeans(model, id, newNick);
      RefileUser(u, oldKey, newKey, newNick);
    }

    // ----- channels -----

    method FindChannel(name: string) returns (ch: Channel?)
      requires ChansLinked() && mapping == model.mapping
      ensures ch != null ==>
              model.Key(name) in byChannel && byChannel[model.Key(name)] == ch
                && model.FindChannel(name) == Some(ch.State())
      ensures ch == null ==> model.FindChannel(name) == None
    {
      if name == "" {
        return null;
      }
      var key := FoldLoop(mapping, name);
      ch := if key in byChannel then byChannel[key] else null;
    }

    /** All channels but the one under key `c` are as the model says. */
    ghost predicate ChansMatchExcept(c: string)
      reads this`byChannel, this`model, byChannel.Values
    {
      && (forall d :: d in byChannel <==> d in model.chans)
      && (forall d :: d in byChannel && d != c ==> byChannel[d].State() == model.chans[d])
    }

    /** The model takes over the state of the channel under key `c`. */
    ghost method Refresh(c: string)
      requires c in byChannel && ChansMatchExcept(c) && Distinct()
      modifies this`model
      ensures ChansLinked() && model == WithChan(old(model), c, byChannel[c].State())
    {
      model := WithChan(model, c, byChannel[c].State());
    }

    method EnsureChannel(name: string, now: Int64) returns (ch: Channel, created: bool)
      requires ChansLinked() && mapping == model.mapping
      modifies this`byChannel, this`model
      ensures ChansLinked() && model == old(model).EnsureChannel(name, now)
      ensures model.Key(name) in byChannel && byChannel[model.Key(name)] == ch
      ensures created == (model.Key(name) !in old(model).chans)
      ensures if created then fresh(ch) else ch in old(byChannel.Values)
      ensures forall c :: c in byChannel.Values ==> c in old(byChannel.Values) || fresh(c)
    {
      var key := FoldLoop(mapping, name);
      if key in byChannel {
        return byChannel[key], false;
      }
      ch := new Channel(name, now);
      FileChannel(ch, key);
      created := true;
    }

    method FileChannel(ch: Channel, key: string)
      requires ChansLinked() && ch !in byChannel.Values
      modifies this`byChannel, this`model
      ensures ChansLinked() && byChannel == old(byChannel)[key := ch] && model == WithChan(old(model), key, ch.State())
    {
      assert forall c :: c in byChannel ==> byChannel[c] in byChannel.Values;
      byChannel := byChannel[key := ch];
      model := WithChan(model, key, ch.State());
    }

    /** The membership part of JoinChannel. */
    method Enter(ch: Channel, id: UserID, created: bool, safe: bool) returns (m: Membership, added: bool)
      modifies ch
      ensures added == (id !in old(ch.members)) && id in ch.members && m == ch.members[id]
      ensures ch.State() == Entered(old(ch.State()), id, created, safe)
    {
      var resurrected := !created && |ch.members| == 0 && safe && ch.modes.serverReop;
      m, added := ch.AddMember(id, created);
      if added && resurrected && !m.IsOp() {
        var ok := ch.AddMembership(id, Op);
        m := ch.members[id];
      }
    }

    /** The same for the channel under key `c`. */
    method EnterAt(ch: Channel, ghost c: string, id: UserID, created: bool, safe: bool)
      returns (m: Membership, added: bool)
      requires ChansLinked() && c in byChannel && byChannel[c] == ch
      modifies this`model, ch
      ensures ChansLinked() && model == WithChan(old(model), c, Entered(old(model).chans[c], id, created, safe))
      ensures added == (id !in old(model).chans[c].members) && id in ch.members && m == ch.members[id]
    {
      m, added := Enter(ch, id, created, safe);
      Refresh(c);
    }

    /** JoinChannel for a user that exists. */
    method Arrive(id: UserID, name: string, now: Int64) returns (ch: Channel, m: Membership, added: bool)
      requires ChansLinked() && mapping == model.mapping
      modifies this`byChannel, this`model, byChannel.Values
      ensures ChansLinked() && model == WithChan(old(model), model.Key(name), old(model).JoinedChan(id, name, now))
      ensures forall c :: c in byChannel.Values ==> c in old(byChannel.Values) || fresh(c)
      ensures model.Key(name) in byChannel && byChannel[model.Key(name)] == ch
      ensures id in ch.members && m == ch.members[id] && added == IsNewMember(old(model), id, name)
    {
      hide Distinct, ChansMatch;
      var created;
      ghost var c := model.Key(name);
      JoinMeans(model, id, name, now);
      ch, created := EnsureChannel(name, now);
      m, added := EnterAt(ch, c, id, created, |name| > 0 && name[0] == '!');
    }

    method JoinChannel(id: UserID, name: string, now: Int64) returns (ch: Channel?, m: Membership, added: bool)
      requires ChansLinked() && mapping == model.mapping && byID.Keys == model.users.Keys
      modifies this`byChannel, this`model, byChannel.Values
      ensures ChansLinked() && model == old(model).JoinChannel(id, name, now)
      ensures forall c :: c in byChannel.Values ==> c in old(byChannel.Values) || fresh(c)
      ensures ch == null <==> id !in byID
      ensures ch != null ==>
              model.Key(name) in byChannel && byChannel[model.Key(name)] == ch && id in ch.members
                && m == ch.members[id]
      ensures added == (ch != null && IsNewMember(old(model), id, name))
    {
      if id !in byID {
        return null, NO_FLAGS, false;
      }
      ch, m, added := Arrive(id, name, now);
    }

    /** Taking a member out of the channel under key `c`. */
    method LeaveAt(ch: Channel, ghost c: string, id: UserID) returns (removed: bool)
      requires ChansLinked() && c in byChannel && byChannel[c] == ch
      modifies this`model, ch
      ensures ChansLinked() && model == WithChan(old(model), c, old(model).chans[c].RemoveMember(id))
      ensures removed == (id in old(model).chans[c].members) && ch.State() == model.chans[c]
    {
      removed := ch.RemoveMember(id);
      Refresh(c);
    }

    method DropChannel(name: string)
      requires ChansLinked() && mapping == model.mapping
      modifies this`byChannel, this`model
      ensures ChansLinked() && model == old(model).(chans := old(model).chans - {model.Key(name)})
      ensures byChannel == old(byChannel) - {model.Key(name)}
    {
      var key := FoldLoop(mapping, name);
      byChannel := byChannel - {key};
      model := model.(chans := model.chans - {key});
    }

    method PartChannel(id: UserID, name: string) returns (ch: Channel?, dropped: bool)
      requires ChansLinked() && mapping == model.mapping
      modifies this`byChannel, this`model, byChannel.Values
      ensures ChansLinked() && model == old(model).PartChannel(id, name)
      ensures ch == null <==> old(model).FindChannel(name).None?
      ensures ch != null ==> model.Key(name) in old(byChannel) && ch == old(byChannel)[model.Key(name)]
      ensures byChannel == if dropped then old(byChannel) - {model.Key(name)} else old(byChannel)
    {
      hide Distinct, ChansMatch;
      ch := FindChannel(name);
      dropped := false;
      if ch == null {
        return;
      }
      ghost var c := model.Key(name);
      PartMeans(model, id, name);
      var removed := LeaveAt(ch, c, id);
      if removed && |ch.members| == 0 && !(|name| > 0 && name[0] == '!' && ch.modes.serverReop) {
        DropChannel(name);
        dropped := true;
      }
    }

    /** The channels a user is in, in the order in which the channel map was walked. */
    method UserChannels(id: UserID) returns (out: seq<Channel>, ghost keys: seq<string>)
      requires ChansLinked()
      ensures Enumerates(keys, model.ChannelsOf(id)) && |out| == |keys|
      ensures forall i :: 0 <= i < |keys| ==> keys[i] in byChannel && out[i] == byChannel[keys[i]]
      ensures forall ch :: ch in out <==> ch in byChannel.Values && id in ch.members
    {
      out, keys := [], [];
      var todo := byChannel.Keys;
      while todo != {}
        invariant todo <= byChannel.Keys && |out| == |keys|
        invariant NoDups(keys) && forall c :: c in keys <==> c in byChannel && c !in todo && id in byChannel[c].members
        invariant forall i :: 0 <= i < |keys| ==> keys[i] in byChannel && out[i] == byChannel[keys[i]]
      {
        var c :| c in todo;
        todo := todo - {c};
        if id in byChannel[c].members {
          out, keys := out + [byChannel[c]], keys + [c];
        }
      }
      ListsAll(id, out, keys);
    }

    lemma ListsAll(id: UserID, out: seq<Channel>, keys: seq<string>)
      requires |out| == |keys| && forall c :: c in byChannel && id in byChannel[c].members ==> c in keys
      requires forall i :: 0 <= i < |keys| ==> keys[i] in byChannel && out[i] == byChannel[keys[i]]
      ensures forall ch :: ch in byChannel.Values && id in ch.members ==> ch in out
    {
      forall ch | ch in byChannel.Values && id in ch.members ensures ch in out {
        var c :| c in byChannel && byChannel[c] == ch;
        var i :| 0 <= i < |keys| && keys[i] == c;
        assert out[i] == ch;
      }
    }
  }

  predicate IsNewMember(w: WorldState, id: UserID, name: string) {
    w.Key(name) in w.chans ==> id !in w.chans[w.Key(name)].members
  }

  lemma PartMeans(w: WorldState, id: UserID, name: string)
    requires w.FindChannel(name).Some?
    ensures var c := w.Key(name);
            var left := WithChan(w, c, w.chans[c].RemoveMember(id));
            && (id !in w.chans[c].members ==> left == w && w.PartChannel(id, name) == w)
            && (id in w.chans[c].members ==>
                  w.PartChannel(id, name)
                  == if |left.chans[c].members| == 0 && !(IsSafe(name) && w.chans[c].modes.serverReop)
                     then left.(chans := left.chans - {c})
                     else left)
  {
    var c := w.Key(name);
    if id !in w.chans[c].members {
      assert w.chans[c].members - {id} == w.chans[c].members;
      assert w.chans[c := w.chans[c]] == w.chans;
    }
    assert w.chans[c := w.chans[c].RemoveMember(id)] - {c} == w.chans - {c};
  }

  lemma KeyOfUser(w: WorldState, id: UserID)
    requires w.UsersValid() && id in w.users
    ensures w.Key(w.users[id].nick) in w.nicks && w.nicks[w.Key(w.users[id].nick)] == id
    ensures forall k :: k in w.nicks && k != w.Key(w.users[id].nick) ==> w.nicks[k] != id
  {
  }

  /** JoinChannel as two steps: make the channel if need be, then enter it. */
  lemma JoinMeans(w: WorldState, id: UserID, name: string, now: Int64)
    ensures var c, made := w.Key(name), w.EnsureChannel(name, now);
            WithChan(made, c, Entered(made.chans[c], id, c !in w.chans, IsSafe(name)))
              == WithChan(w, c, w.JoinedChan(id, name, now))
  {
    var c := w.Key(name);
    var ch := w.JoinedChan(id, name, now);
    assert w.chans[c := ch] == w.EnsureChannel(name, now).chans[c := ch];
  }

  ghost function Added(w: WorldState, u: UserState, key: string): WorldState {
    w.(users := w.users[w.lastId + 1 := u.(id := w.lastId + 1)], nicks := w.nicks[key := w.lastId + 1],
      lastId := w.lastId + 1)
  }

  lemma AddMeans(w: WorldState, u: UserState)
    requires w.UsersValid()
    ensures w.lastId + 1 !in w.users
    ensures w.CanAdd(u) ==> w.AddUser(u) == Added(w, u, w.Key(u.nick))
  {
  }

  lemma RenameMeans(w: WorldState, id: UserID, newNick: string)
    requires w.UsersValid() && w.CanRename(id, newNick)
    ensures var oldKey := w.Key(w.users[id].nick);
            && oldKey in w.nicks && w.nicks[oldKey] == id
            && w.RenameUser(id, newNick) == Renamed(w, w.users[id], newNick, (w.nicks - {oldKey})[w.Key(newNick) := id])
  {
  }

  ghost function Renamed(w: WorldState, u: UserState, newNick: string, nicks: map<string, UserID>): WorldState {
    w.(users := w.users[u.id := u.(nick := newNick)], nicks := nicks)
  }
}
