/** A peer as the mirror of a node: what a client does at home is forwarded as a line, and the peer that handles the
    line knows the same nicks and agrees on the channels again. */
module Mirror {
  import opened Prelude
  import opened Numbers
  import opened CaseMap
  import opened Message
  import opened State
  import opened ModeSpec
  import opened ModeProofs
  import opened FedSpec
  import opened Clients
  import opened BurstUsers
  import opened ChannelMerge

  // ----- a change of nick -----

  function NickLine(u: UserState, nick: string): Message {
    Plain(u.Hostmask(), "NICK", [nick])
  }

  /** The peer has a copy of the home node's user. */
  ghost predicate HasCopyOf(p: WorldState, u: UserState, server: string) {
    p.FindByNick(u.nick).Some? && IsCopy(p.FindByNick(u.nick).value, u, server)
  }

  /** The sender of a line is found by the nick in its hostmask. */
  lemma SenderIsNick(u: UserState)
    requires '!' !in u.nick
    ensures SenderOf(u.Hostmask()) == u.nick
  {
    SenderOfMask(u.nick, (if u.user == "" then u.nick else u.user) + "@"
                 + (if u.host == "" then "unknown" else u.host));
  }

  lemma CopyIsRemote(p: WorldState, u: UserState, server: string)
    requires HasCopyOf(p, u, server) && server != ""
    ensures p.FindByNick(u.nick).value.IsRemote()
  {
  }

  lemma RenameFinds(w: WorldState, id: UserID, nick: string, n: string)
    requires w.UsersValid() && w.CanRename(id, nick)
    ensures w.RenameUser(id, nick).FindByNick(n)
         == if n != "" && w.Key(n) == w.Key(nick) then Some(w.users[id].(nick := nick))
            else if w.Key(n) == w.Key(w.users[id].nick) then None
            else w.FindByNick(n)
  {
  }

  lemma NickLineHandled(p: WorldState, local: string, peer: string, u: UserState, server: string, nick: string,
                        now: Int64)
    requires HasCopyOf(p, u, server) && server != "" && '!' !in u.nick
    ensures Handle(p, local, peer, NickLine(u, nick), now)
         == Quietly(p.RenameUser(p.FindByNick(u.nick).value.id, nick))
  {
    VerbsOf();
    SenderIsNick(u);
    CopyIsRemote(p, u, server);
  }

  /** What the members of a channel are to both nodes after the same user was renamed on both. */
  lemma RenamedViews(h: WorldState, id: UserID, p: WorldState, pid: UserID, nick: string, a: ChanState, b: ChanState)
    requires h.UsersValid() && p.UsersValid() && h.mapping == p.mapping && h.CanRename(id, nick)
             && p.CanRename(pid, nick)
    requires h.Key(h.users[id].nick) == p.Key(p.users[pid].nick) && SameViews(h, a, p, b)
    ensures SameViews(h.RenameUser(id, nick), a, p.RenameUser(pid, nick), b)
  {
    hide WorldState.RenameUser;
    var was := h.users[id].nick;
    assert MemberView(h, a, was) == MemberView(p, b, was);
    FoundByNick(h, id);
    FoundByNick(p, pid);
    assert p.FindByNick(was) == Some(p.users[pid]);
    forall n: string ensures MemberView(h.RenameUser(id, nick), a, n) == MemberView(p.RenameUser(pid, nick), b, n) {
      RenameFinds(h, id, nick, n);
      RenameFinds(p, pid, nick, n);
      assert MemberView(h, a, n) == MemberView(p, b, n);
    }
  }

  lemma FoundByNick(w: WorldState, id: UserID)
    requires w.UsersValid() && id in w.users
    ensures w.FindByNick(w.users[id].nick) == Some(w.users[id]) && w.users[id].id == id
    ensures forall n: string :: w.Key(n) == w.Key(w.users[id].nick) ==> w.FindByNick(n) == Some(w.users[id])
  {
    forall n: string | w.Key(n) == w.Key(w.users[id].nick) ensures n != "" {
      assert |w.Key(n)| == |n|;
    }
  }

  /** A local user whose copy the peer has takes a nick that is free on both nodes, or changes the case of its own.
      The peer, which handles the line with the old hostmask, finds the copy under the new nick and otherwise as it
      was, and nobody under the old one when that is another nick. No other user and no channel is touched, nothing
      is sent back, and whoever was seen in a channel alike on both nodes still is. */
  lemma RenameReplicates(h: WorldState, p: WorldState, server: string, local: string, peer: string, id: UserID,
                         nick: string, now: Int64)
    requires h.UsersValid() && p.UsersValid() && h.mapping == p.mapping && server != ""
    requires IsLocal(h, id) && '!' !in h.users[id].nick && HasCopyOf(p, h.users[id], server)
    requires h.CanRename(id, nick) && (p.FindByNick(nick).None? || h.Key(nick) == h.Key(h.users[id].nick))
    ensures var was, copy := h.users[id].nick, p.FindByNick(h.users[id].nick).value;
            var h', r := Exec(h, Nick(id, nick)), Handle(p, local, peer, NickLine(h.users[id], nick), now);
            && r.sent == [] && r.drops == [] && r.w.UsersValid()
            && r.w.FindByNick(nick) == Some(copy.(nick := nick)) && HasCopyOf(r.w, h'.users[id], server)
            && (h.Key(nick) != h.Key(was) ==> r.w.FindByNick(was).None?)
            && (forall n: string :: h.Key(n) !in {h.Key(nick), h.Key(was)} ==> r.w.FindByNick(n) == p.FindByNick(n))
            && r.w.users == p.users[copy.id := copy.(nick := nick)] && r.w == p.(users := r.w.users, nicks := r.w.nicks)
            && (forall a, b :: SameViews(h, a, p, b) ==> SameViews(h', a, r.w, b))
  {
    hide Handle, IsCopy, SameViews, NickLine, WorldState.RenameUser;
    var u := h.users[id];
    var copy := p.FindByNick(u.nick).value;
    NickLineHandled(p, local, peer, u, server, nick, now);
    CopyHasNick(p, u, server);
    CopyIsFree(p, copy, nick);
    RenamedRecord(p, copy, nick);
    HomeRenamed(h, id, nick);
    RenamedCopy(copy, u, server, nick);
    forall a: ChanState, b: ChanState | SameViews(h, a, p, b)
      ensures SameViews(h.RenameUser(id, nick), a, p.RenameUser(copy.id, nick), b)
    {
      RenamedViews(h, id, p, copy.id, nick, a, b);
    }
  }

  lemma CopyIsFree(p: WorldState, copy: UserState, nick: string)
    requires p.UsersValid() && copy.id in p.users && p.users[copy.id] == copy && nick != ""
    requires p.FindByNick(nick).None? || p.Key(nick) == p.Key(copy.nick)
    ensures p.CanRename(copy.id, nick)
  {
  }

  lemma HomeRenamed(h: WorldState, id: UserID, nick: string)
    requires h.CanRename(id, nick)
    ensures id in h.RenameUser(id, nick).users && h.RenameUser(id, nick).users[id] == h.users[id].(nick := nick)
  {
  }

  /** One record is found under its new nick, and nothing else has changed. */
  lemma RenamedRecord(p: WorldState, v: UserState, nick: string)
    requires p.UsersValid() && v.id in p.users && p.users[v.id] == v && p.CanRename(v.id, nick)
    ensures var p' := p.RenameUser(v.id, nick);
            && p'.UsersValid() && p'.FindByNick(nick) == Some(v.(nick := nick))
            && (p.Key(nick) != p.Key(v.nick) ==> p'.FindByNick(v.nick).None?)
            && (forall n: string :: p.Key(n) !in {p.Key(nick), p.Key(v.nick)} ==> p'.FindByNick(n) == p.FindByNick(n))
            && p'.users == p.users[v.id := v.(nick := nick)] && p' == p.(users := p'.users, nicks := p'.nicks)
  {
    RenameUserKeeps(p, v.id, nick);
    hide WorldState.UsersValid;
    RenameFinds(p, v.id, nick, nick);
    RenameFinds(p, v.id, nick, v.nick);
    forall n: string | p.Key(n) !in {p.Key(nick), p.Key(v.nick)}
      ensures p.RenameUser(v.id, nick).FindByNick(n) == p.FindByNick(n)
    {
      RenameFinds(p, v.id, nick, n);
    }
  }

  lemma CopyHasNick(p: WorldState, u: UserState, server: string)
    requires p.UsersValid() && HasCopyOf(p, u, server)
    ensures var v := p.FindByNick(u.nick).value; v.nick == u.nick && v.id in p.users && p.users[v.id] == v
  {
  }

  lemma RenamedCopy(v: UserState, u: UserState, server: string, nick: string)
    requires IsCopy(v, u, server)
    ensures IsCopy(v.(nick := nick), u.(nick := nick), server)
  {
  }
}
