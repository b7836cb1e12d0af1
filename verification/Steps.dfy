/** World operations that keep both halves of the world in step with the model. */
module Steps {
  import opened Prelude
  import opened Numbers
  import opened State
  import opened Channel
  import W = World

  method Remove(w: W.World, id: UserID)
    requires w.Valid() && w.model.UsersValid()
    modifies w`byNick, w`byID, w`model
    ensures w.Valid() && w.model == old(w.model).RemoveUser(id) && w.model.UsersValid()
  {
    RemoveUserKeeps(w.model, id);
    var ok := w.RemoveUser(id);
    w.ChansUntouched();
  }

  method Add(w: W.World, u: UserState)
    requires w.Valid() && w.model.UsersValid()
    modifies w`byNick, w`byID, w`lastId, w`model
    ensures w.Valid() && w.model == old(w.model).AddUser(u)
  {
    hide WorldState.UsersValid;
    var user := new W.User(u);
    var ok := w.AddUser(user);
    w.ChansUntouched();
  }

  method Rename(w: W.World, id: UserID, newNick: string)
    requires w.Valid() && w.model.UsersValid()
    modifies w`byNick, w`model, w.byID.Values
    ensures w.Valid() && w.model == old(w.model).RenameUser(id, newNick)
  {
    hide WorldState.UsersValid, W.World.RecordsMatch, W.World.NamesMatch;
    var ok := w.RenameUser(id, newNick);
    w.ChansUntouched();
  }

  /** The record found under a nick, as it is now. */
  method Lookup(w: W.World, nick: string) returns (found: Option<UserState>)
    requires w.UsersLinked()
    ensures found == w.model.FindByNick(nick)
  {
    var u := w.FindByNick(nick);
    found := if u == null then None else Some(u.State());
  }

  method Join(w: W.World, id: UserID, name: string, now: Int64)
    requires w.Valid()
    modifies w`byChannel, w`model, w.byChannel.Values
    ensures w.Valid() && w.model == old(w.model).JoinChannel(id, name, now)
    ensures forall ch :: ch in w.byChannel.Values ==> ch in old(w.byChannel.Values) || fresh(ch)
  {
    var ch, m, added := w.JoinChannel(id, name, now);
    ChannelsOnly(old(w.model), id, name, now);
    w.UsersUntouched();
  }

  method Part(w: W.World, id: UserID, name: string)
    requires w.Valid()
    modifies w`byChannel, w`model, w.byChannel.Values
    ensures w.Valid() && w.model == old(w.model).PartChannel(id, name)
  {
    hide W.World.RecordsMatch, W.World.NamesMatch;
    var ch, dropped := w.PartChannel(id, name);
    ChannelsOnly(old(w.model), id, name, 0);
    w.UsersUntouched();
  }

  method SetTopicOf(w: W.World, ch: Channel, ghost c: string, text: string, setBy: string, at: int)
    requires w.Valid() && c in w.byChannel && w.byChannel[c] == ch
    modifies w`model, ch
    ensures w.Valid() && w.model == WithChan(old(w.model), c, old(ch.State()).(topic := Topic(text, setBy, at)))
  {
    hide W.World.RecordsMatch, W.World.NamesMatch;
    ch.SetTopic(text, setBy, at);
    w.Refresh(c);
    w.UsersUntouched();
  }

  /** Joins and parts leave the users alone. */
  lemma ChannelsOnly(w: WorldState, id: UserID, name: string, now: Int64)
    ensures SameUsers(w, w.JoinChannel(id, name, now)) && SameUsers(w, w.PartChannel(id, name))
  {
  }
}
