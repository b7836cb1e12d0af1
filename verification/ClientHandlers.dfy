/** The client commands that change the world, as they run on its objects. */
module ClientHandlers {
  import opened Numbers
  import opened CaseMap
  import opened State
  import opened ModeSpec
  import opened Clients
  import opened Channel
  import opened ModeHandlers
  import opened Steps
  import W = World

  /** checkJoinPolicy. An invitation that is needed is used up even when a later check fails. */
  method CheckJoinPolicy(m: CaseMapping, ch: Channel, u: UserState, key: string) returns (v: Verdict)
    modifies ch
    ensures v == JoinVerdict(m, old(ch.State()), u, key) && ch.State() == AfterPolicy(m, old(ch.State()), u)
  {
    var mask := u.Hostmask();
    var admitted := InvitePolicy(m, ch, u);
    if !admitted {
      return InviteOnlyRefused;
    }
    if ch.key != "" && ch.key != key {
      return BadKey;
    }
    if ch.limit > 0 && |ch.members| >= ch.limit {
      return Full;
    }
    var banned := ch.MatchesList(Ban, m, mask);
    if banned {
      var excepted := ch.MatchesList(Exception, m, mask);
      if !excepted {
        return Banned;
      }
    }
    v := Admitted;
  }

  method InvitePolicy(m: CaseMapping, ch: Channel, u: UserState) returns (admitted: bool)
    modifies ch
    ensures admitted == !(NeedsInvite(m, old(ch.State()), u) && u.id !in old(ch.State()).invites)
    ensures ch.State() == AfterPolicy(m, old(ch.State()), u)
  {
    if !ch.modes.inviteOnly {
      return true;
    }
    admitted := ch.MatchesList(Invex, m, u.Hostmask());
    if !admitted {
      admitted := ch.ConsumeInvite(u.id);
    }
  }

  /** Whether a message of the user to the channel is delivered. */
  method SpeakPolicy(m: CaseMapping, ch: Channel, u: UserState) returns (ok: bool)
    ensures ok == MaySpeak(m, ch.State(), u)
  {
    var isMember := u.id in ch.members;
    if ch.modes.noExternal && !isMember {
      return false;
    }
    var mem := if isMember then ch.members[u.id] else NO_FLAGS;
    if ch.modes.moderated {
      if !mem.IsOp() && !mem.IsVoice() {
        return false;
      }
    }
    if !mem.IsOp() && !mem.IsVoice() {
      var quiet := ch.MatchesList(Quiet, m, u.Hostmask());
      if quiet {
        return false;
      }
    }
    ok := true;
  }

  /** The policy check on a channel of the world. */
  method Knock(w: W.World, ch: Channel, ghost c: string, u: UserState, key: string) returns (v: Verdict)
    requires w.Valid() && c in w.byChannel && w.byChannel[c] == ch
    modifies w`model, ch
    ensures w.Valid() && w.model == WithChan(old(w.model), c, AfterPolicy(w.mapping, old(ch.State()), u))
    ensures v == JoinVerdict(w.mapping, old(ch.State()), u, key)
  {
    hide W.World.RecordsMatch, W.World.NamesMatch;
    v := CheckJoinPolicy(w.mapping, ch, u, key);
    w.Refresh(c);
    w.UsersUntouched();
  }

  /** joinOne, once the name is final. */
  method JoinOne(w: W.World, u: W.User, name: string, key: string, now: Int64)
    requires w.Valid() && u.id in w.byID && w.byID[u.id] == u
    modifies w`byChannel, w`model, w.byChannel.Values
    ensures w.Valid() && w.model == Clients.JoinOne(old(w.model), u.id, name, key, now)
  {
    hide W.World.NamesMatch, W.World.Distinct;
    var existing := w.FindChannel(name);
    if existing == null {
      Steps.Join(w, u.id, name, now);
    } else {
      JoinExisting(w, existing, u.State(), name, key, now);
    }
  }

  method JoinExisting(w: W.World, ch: Channel, u: UserState, name: string, key: string, now: Int64)
    requires w.Valid() && w.mapping == w.model.mapping && w.model.Key(name) in w.byChannel
             && w.byChannel[w.model.Key(name)] == ch
    modifies w`byChannel, w`model, w.byChannel.Values
    ensures w.Valid() && w.model == Admit(old(w.model), old(ch.State()), u, name, key, now)
  {
    hide W.World.RecordsMatch, W.World.NamesMatch;
    var v := Knock(w, ch, w.model.Key(name), u, key);
    if v == Admitted {
      Steps.Join(w, u.id, name, now);
    }
  }

  method PartOne(w: W.World, id: UserID, name: string)
    requires w.Valid()
    modifies w`byChannel, w`model, w.byChannel.Values
    ensures w.Valid() && w.model == Clients.PartOne(old(w.model), id, name)
  {
    var ch := w.FindChannel(name);
    if ch == null || id !in ch.members {
      return;
    }
    Steps.Part(w, id, name);
  }

  method KickOne(w: W.World, id: UserID, name: string, targetNick: string)
    requires w.Valid()
    modifies w`byChannel, w`model, w.byChannel.Values
    ensures w.Valid() && w.model == Clients.KickOne(old(w.model), id, name, targetNick)
  {
    var ch := w.FindChannel(name);
    if ch == null || id !in ch.members || !ch.members[id].IsOp() {
      return;
    }
    RemoveTarget(w, ch, targetNick);
  }

  method RemoveTarget(w: W.World, ch: Channel, targetNick: string)
    requires w.Valid()
    modifies w`byChannel, w`model, w.byChannel.Values
    ensures w.Valid() && w.model == Kicked(old(w.model), old(ch.State()), old(w.model).FindByNick(targetNick))
  {
    var target := Lookup(w, targetNick);
    if target.None? || target.value.id !in ch.members {
      return;
    }
    Steps.Part(w, target.value.id, ch.name);
  }

  /** A MODE line of a channel member. */
  method ModeOne(w: W.World, id: UserID, name: string, params: seq<string>, now: int)
    returns (changes: string, outParams: seq<string>, bad: string)
    requires w.Valid()
    modifies w`model, w.byChannel.Values
    ensures w.Valid() && w.model == Clients.ModeOne(old(w.model), id, name, params, now)
    ensures (changes, outParams, bad) == ModeEcho(old(w.model), id, name, params, now)
  {
    changes, outParams, bad := "", [], "";
    var ch := w.FindChannel(name);
    if ch == null || params == [] || (ch.name != "" && ch.name[0] == '+') || id !in ch.members
      || !ch.members[id].IsOp() {
      return;
    }
    changes, outParams, bad := ChangeModes(w, ch, w.model.Key(name), params, now);
  }

  /** What is broadcast and what is bounced after a MODE line: nothing when it is not allowed. */
  function ModeEcho(w: WorldState, id: UserID, name: string, params: seq<string>, now: int)
    : (string, seq<string>, string)
  {
    if w.FindChannel(name).None? || params == [] || IsModeless(w.FindChannel(name).value.name)
      || !IsMemberOp(w.FindChannel(name).value, id)
    then ("", [], "")
    else
      var o := LocalRun(w, w.FindChannel(name).value, '+', params[0], params[1..], now);
      (o.changes, o.params, o.unknown)
  }

  method ChangeModes(w: W.World, ch: Channel, ghost c: string, params: seq<string>, now: int)
    returns (changes: string, outParams: seq<string>, bad: string)
    requires w.Valid() && c in w.byChannel && w.byChannel[c] == ch && params != []
    modifies w`model, ch
    ensures w.Valid()
    ensures var o := LocalRun(old(w.model), old(ch.State()), '+', params[0], params[1..], now);
            w.model == WithChan(old(w.model), c, o.ch) && changes == o.changes && outParams == o.params
              && bad == o.unknown
  {
    hide W.World.RecordsMatch, W.World.NamesMatch;
    changes, outParams, bad := ApplyChannelModes(w, ch, params, now);
    w.Refresh(c);
    w.UsersUntouched();
  }

  method TopicOne(w: W.World, u: UserState, name: string, text: string, now: int)
    requires w.Valid() && u.id in w.model.users && w.model.users[u.id] == u
    modifies w`model, w.byChannel.Values
    ensures w.Valid() && w.model == Clients.TopicOne(old(w.model), u.id, name, text, now)
  {
    hide W.World.RecordsMatch, W.World.NamesMatch;
    var ch := w.FindChannel(name);
    if ch != null && MaySetTopic(ch, u.id) {
      SetTopicOf(w, ch, w.model.Key(name), text, u.Hostmask(), now);
    }
  }

  predicate MaySetTopic(ch: Channel, id: UserID)
    reads ch
  {
    id in ch.members && (ch.modes.topicLocked ==> ch.members[id].IsOp())
  }

  method InviteOne(w: W.World, id: UserID, targetNick: string, name: string)
    requires w.Valid()
    modifies w`model, w.byChannel.Values
    ensures w.Valid() && w.model == Clients.InviteOne(old(w.model), id, targetNick, name)
  {
    var target := Lookup(w, targetNick);
    if target.Some? {
      InviteFound(w, id, target.value.id, name);
    }
  }

  method InviteFound(w: W.World, id: UserID, target: UserID, name: string)
    requires w.Valid()
    modifies w`model, w.byChannel.Values
    ensures w.Valid() && w.model == InvitedBy(old(w.model), id, target, name)
  {
    hide W.World.RecordsMatch, W.World.NamesMatch;
    var ch := w.FindChannel(name);
    if ch == null || id !in ch.members || target in ch.members || (ch.modes.inviteOnly && !ch.members[id].IsOp()) {
      return;
    }
    InviteTo(w, ch, w.model.Key(name), target);
  }

  method InviteTo(w: W.World, ch: Channel, ghost c: string, id: UserID)
    requires w.Valid() && c in w.byChannel && w.byChannel[c] == ch
    modifies w`model, ch
    ensures w.Valid() && w.model == WithChan(old(w.model), c, Invited(old(ch.State()), id))
  {
    hide W.World.RecordsMatch, W.World.NamesMatch;
    var added := ch.AddInvite(id);
    w.Refresh(c);
    w.UsersUntouched();
  }
}
