/** Every run of client commands on a node, followed line by line on a peer, keeps the peer a mirror of the node:
    the same nicks, and agreement on every channel whose modes are replicated. */
module MirrorRuns {
  import opened Prelude
  import opened Numbers
  import opened CaseMap
  import opened Message
  import opened State
  import opened ModeSpec
  import opened ModeProofs
  import opened ModeReplicas
  import opened ModeStrays
  import opened ModeWire
  import opened FedSpec
  import opened Clients
  import opened ModeMeaning
  import opened Authority
  import opened BurstUsers
  import opened BurstChannels
  import opened BurstReplay
  import opened BurstTheorem
  import opened BurstExchange
  import opened ChannelMerge
  import opened Mirror
  import opened JoinRules
  import Safety

  // ----- mirrors -----

  /** Keys of '#', '&' and '+' channels. Safe channels have modes that no peer is told. */
  predicate Covered(c: string) {
    c != "" && c[0] in {'#', '&', '+'}
  }

  ghost predicate Peopled(w: WorldState, ch: ChanState) {
    forall id :: id in ch.members ==> id in w.users
  }

  /** Both nodes know the nick or neither does, and the peer's record of a user of the home node is a copy. */
  ghost predicate NickMirrored(h: WorldState, server: string, p: WorldState, n: string) {
    && (h.FindByNick(n).Some? <==> p.FindByNick(n).Some?)
    && (h.FindByNick(n).Some? && !h.FindByNick(n).value.IsRemote() ==>
          IsCopy(p.FindByNick(n).value, h.FindByNick(n).value, server))
  }

  /** Both nodes have the channel and agree on it, or neither has it. */
  ghost predicate ChanMirrored(h: WorldState, p: WorldState, c: string) {
    && (c in h.chans <==> c in p.chans)
    && (c in h.chans && c in p.chans ==>
          Peopled(h, h.chans[c]) && Peopled(p, p.chans[c]) && CopiesAgree(h, h.chans[c], p, p.chans[c]))
  }

  ghost predicate SameNicks(h: WorldState, server: string, p: WorldState) {
    && h.Valid() && p.Valid() && h.mapping == p.mapping && ServerName(server)
    && (forall id :: IsLocal(h, id) ==> '!' !in h.users[id].nick)
    && forall n: string :: NickMirrored(h, server, p, n)
  }

  /** The peer `p` mirrors the node `h` of that name. */
  ghost predicate Mirrors(h: WorldState, server: string, p: WorldState) {
    SameNicks(h, server, p) && forall c: string :: Covered(c) ==> ChanMirrored(h, p, c)
  }

  // ----- one user on both nodes -----

  /** The user `id` of the home node and `pid` of the peer have the same nick. */
  ghost predicate Twins(h: WorldState, id: UserID, p: WorldState, pid: UserID) {
    && h.mapping == p.mapping && id in h.users && pid in p.users
    && h.Key(h.users[id].nick) == p.Key(p.users[pid].nick)
  }

  lemma TwinOf(h: WorldState, server: string, p: WorldState, id: UserID) returns (pid: UserID)
    requires SameNicks(h, server, p) && id in h.users
    ensures Twins(h, id, p, pid) && p.FindByNick(h.users[id].nick) == Some(p.users[pid])
    ensures !h.users[id].IsRemote() ==> HasCopyOf(p, h.users[id], server) && p.users[pid].IsRemote()
    ensures pid == p.users[pid].id
  {
    hide IsCopy;
    var nick := h.users[id].nick;
    FoundByNick(h, id);
    assert NickMirrored(h, server, p, nick);
    FoundHasKey(p, nick);
    pid := p.FindByNick(nick).value.id;
    if !h.users[id].IsRemote() {
      CopyIsRemote(p, h.users[id], server);
    }
  }

  lemma TwinBack(h: WorldState, server: string, p: WorldState, pid: UserID) returns (id: UserID)
    requires SameNicks(h, server, p) && pid in p.users
    ensures Twins(h, id, p, pid)
  {
    hide IsCopy;
    var nick := p.users[pid].nick;
    FoundByNick(p, pid);
    assert NickMirrored(h, server, p, nick);
    FoundHasKey(h, nick);
    id := h.FindByNick(nick).value.id;
  }

  /** What a node sees of its user in a channel, under any spelling of the nick. */
  lemma ViewOfUser(w: WorldState, ch: ChanState, id: UserID, n: string)
    requires w.UsersValid() && id in w.users && w.Key(n) == w.Key(w.users[id].nick)
    ensures MemberView(w, ch, n)
         == if id in ch.members then Some((ch.members[id].op, ch.members[id].voice)) else None
  {
    FoundByNick(w, id);
  }

  lemma OtherView(w: WorldState, ch: ChanState, ch': ChanState, id: UserID, n: string)
    requires w.UsersValid() && id in w.users && w.Key(n) != w.Key(w.users[id].nick)
    requires forall x :: x != id ==> (x in ch.members <==> x in ch'.members)
    requires forall x :: x != id && x in ch.members && x in ch'.members ==> ch.members[x] == ch'.members[x]
    ensures MemberView(w, ch', n) == MemberView(w, ch, n)
  {
    if w.FindByNick(n).Some? {
      assert w.nicks[w.Key(n)] in w.users;
    }
  }

  lemma TwinMembers(h: WorldState, a: ChanState, id: UserID, p: WorldState, b: ChanState, pid: UserID)
    requires h.UsersValid() && p.UsersValid() && Twins(h, id, p, pid) && SameViews(h, a, p, b)
    ensures id in a.members <==> pid in b.members
    ensures id in a.members && pid in b.members ==>
              a.members[id].op == b.members[pid].op && a.members[id].voice == b.members[pid].voice
  {
    var n := h.users[id].nick;
    assert MemberView(h, a, n) == MemberView(p, b, n);
    ViewOfUser(h, a, id, n);
    ViewOfUser(p, b, pid, n);
  }

  /** The same flags for the two of them keep the views alike. */
  lemma TwinsEnter(h: WorldState, a: ChanState, id: UserID, p: WorldState, b: ChanState, pid: UserID, m: Membership,
                   m': Membership)
    requires h.UsersValid() && p.UsersValid() && Twins(h, id, p, pid) && SameViews(h, a, p, b)
    requires m.op == m'.op && m.voice == m'.voice
    ensures SameViews(h, a.(members := a.members[id := m]), p, b.(members := b.members[pid := m']))
  {
    var a', b' := a.(members := a.members[id := m]), b.(members := b.members[pid := m']);
    forall n: string ensures MemberView(h, a', n) == MemberView(p, b', n) {
      assert MemberView(h, a, n) == MemberView(p, b, n);
      if h.Key(n) == h.Key(h.users[id].nick) {
        ViewOfUser(h, a', id, n);
        ViewOfUser(p, b', pid, n);
      } else {
        OtherView(h, a, a', id, n);
        OtherView(p, b, b', pid, n);
      }
    }
  }

  lemma TwinsLeave(h: WorldState, a: ChanState, id: UserID, p: WorldState, b: ChanState, pid: UserID)
    requires h.UsersValid() && p.UsersValid() && Twins(h, id, p, pid) && SameViews(h, a, p, b)
    ensures SameViews(h, a.(members := a.members - {id}), p, b.(members := b.members - {pid}))
  {
    var a', b' := a.(members := a.members - {id}), b.(members := b.members - {pid});
    forall n: string ensures MemberView(h, a', n) == MemberView(p, b', n) {
      assert MemberView(h, a, n) == MemberView(p, b, n);
      if h.Key(n) == h.Key(h.users[id].nick) {
        ViewOfUser(h, a', id, n);
        ViewOfUser(p, b', pid, n);
      } else {
        OtherView(h, a, a', id, n);
        OtherView(p, b, b', pid, n);
      }
    }
  }

  /** A member besides the one is there on both nodes or on neither. */
  lemma AloneTogether(h: WorldState, server: string, p: WorldState, a: ChanState, id: UserID, b: ChanState, pid: UserID)
    requires SameNicks(h, server, p) && Twins(h, id, p, pid) && SameViews(h, a, p, b)
    requires Peopled(h, a) && Peopled(p, b)
    ensures a.members.Keys <= {id} <==> b.members.Keys <= {pid}
  {
    if x :| x in a.members && x != id {
      var y := TwinOf(h, server, p, x);
      TwinMembers(h, a, x, p, b, y);
      assert y in b.members.Keys && y != pid by {
        FoundByNick(h, x);
        FoundByNick(h, id);
      }
    }
    if y :| y in b.members && y != pid {
      var x := TwinBack(h, server, p, y);
      TwinMembers(h, a, x, p, b, y);
      assert x in a.members.Keys && x != id by {
        FoundByNick(p, y);
        FoundByNick(p, pid);
      }
    }
  }

  // ----- one channel on both nodes -----

  /** Only what is filed under `c` may have changed. */
  ghost predicate OnlyAt(w: WorldState, w': WorldState, c: string) {
    && w' == w.(chans := w'.chans)
    && (forall k: string :: k != c ==> (k in w.chans <==> k in w'.chans))
    && (forall k: string :: k != c && k in w.chans && k in w'.chans ==> w.chans[k] == w'.chans[k])
    && (c in w'.chans ==> w.Key(w'.chans[c].name) == c)
  }

  lemma SameViewsLater(h: WorldState, a: ChanState, p: WorldState, b: ChanState, h': WorldState, p': WorldState)
    requires SameViews(h, a, p, b) && SameUsers(h, h') && SameUsers(p, p')
    ensures SameViews(h', a, p', b)
  {
    forall n: string ensures MemberView(h', a, n) == MemberView(p', b, n) {
      assert MemberView(h, a, n) == MemberView(p, b, n);
    }
  }

  lemma SameNicksLater(h: WorldState, server: string, p: WorldState, h': WorldState, p': WorldState, c: string)
    requires SameNicks(h, server, p) && OnlyAt(h, h', c) && OnlyAt(p, p', c)
    ensures SameNicks(h', server, p')
  {
    SameUsersValid(h, h');
    SameUsersValid(p, p');
    hide IsCopy, WorldState.UsersValid;
    forall n: string ensures NickMirrored(h', server, p', n) {
      assert NickMirrored(h, server, p, n);
    }
  }

  /** A channel that changed on both nodes, so that they agree on it again. */
  lemma OneChanged(h: WorldState, server: string, p: WorldState, h': WorldState, p': WorldState, c: string)
    requires Mirrors(h, server, p) && OnlyAt(h, h', c) && OnlyAt(p, p', c)
    requires Covered(c) ==> ChanMirrored(h', p', c)
    ensures Mirrors(h', server, p')
  {
    hide SameNicks, SameViews;
    SameNicksLater(h, server, p, h', p', c);
    forall k: string | Covered(k) ensures ChanMirrored(h', p', k) {
      assert ChanMirrored(h, p, k);
      if k != c && k in h.chans {
        SameViewsLater(h, h.chans[k], p, p.chans[k], h', p');
      }
    }
  }

  lemma Unchanged(w: WorldState, c: string)
    requires w.Valid()
    ensures OnlyAt(w, w, c)
  {
  }

  /** Covered channels are not safe, whatever the spelling. */
  lemma CoveredIsPlain(m: CaseMapping, name: string, c: string)
    requires Fold(m, name) == c && Covered(c)
    ensures name != "" && !IsSafe(name) && name[0] == c[0]
  {
    assert |name| == |c|;
    assert Fold(m, name)[0] == FoldByte(m, name[0]);
  }

  // ----- joins -----

  function JoinedLine(u: UserState, name: string): Message {
    Plain(u.Hostmask(), "JOIN", [name])
  }

  lemma JoinedLineHandled(p: WorldState, local: string, peer: string, u: UserState, name: string, now: Int64)
    requires p.FindByNick(u.nick).Some? && p.FindByNick(u.nick).value.IsRemote() && '!' !in u.nick
    ensures Handle(p, local, peer, JoinedLine(u, name), now).w
         == p.JoinChannel(p.FindByNick(u.nick).value.id, name, now)
  {
    VerbsOf();
    SenderIsNick(u);
  }

  lemma JoinsOnlyAt(w: WorldState, id: UserID, name: string, now: Int64)
    requires w.Valid() && name != ""
    ensures OnlyAt(w, w.JoinChannel(id, name, now), w.Key(name))
  {
    hide WorldState.UsersValid;
    if id in w.users {
      Safety.JoinedChanShape(w, id, name, now);
    }
  }

  /** The channel after a join: a new one, with the founder in it, or with one more member without flags. */
  lemma PlainJoin(w: WorldState, id: UserID, name: string, now: Int64)
    requires w.Valid() && Covered(w.Key(name)) && (w.Key(name) in w.chans ==> id !in w.chans[w.Key(name)].members)
    ensures w.JoinedChan(id, name, now)
         == if w.Key(name) in w.chans then
              var ch := w.chans[w.Key(name)]; ch.(members := ch.members[id := NO_FLAGS])
            else
              var ch := NewChan(name, now); ch.(members := ch.members[id := ch.FounderFlags()])
  {
    CoveredIsPlain(w.mapping, name, w.Key(name));
  }

  lemma NobodyInNewChannels(h: WorldState, name: string, now: Int64, p: WorldState, name': string, later: Int64)
    ensures SameViews(h, NewChan(name, now), p, NewChan(name', later))
    ensures SameSettings(NewChan(name, now), NewChan(name', later))
  {
  }

  /** Twins join the same channel on both nodes. */
  lemma TwinsJoin(h: WorldState, server: string, p: WorldState, id: UserID, pid: UserID, name: string, name': string,
                  now: Int64, later: Int64)
    requires Mirrors(h, server, p) && Twins(h, id, p, pid) && h.Key(name) == p.Key(name') && Covered(h.Key(name))
    requires if h.Key(name) in h.chans then id !in h.chans[h.Key(name)].members else name == name'
    ensures var a, b := h.JoinedChan(id, name, now), p.JoinedChan(pid, name', later);
            CopiesAgree(h, a, p, b) && Peopled(h, a) && Peopled(p, b)
  {
    hide SameNicks, SameViews, WorldState.JoinedChan, WorldState.UsersValid;
    var c := h.Key(name);
    assert ChanMirrored(h, p, c);
    BothValid(h, server, p);
    if c in h.chans {
      TwinMembers(h, h.chans[c], id, p, p.chans[c], pid);
      PlainJoin(h, id, name, now);
      PlainJoin(p, pid, name', later);
      TwinsEnter(h, h.chans[c], id, p, p.chans[c], pid, NO_FLAGS, NO_FLAGS);
    } else {
      PlainJoin(h, id, name, now);
      PlainJoin(p, pid, name', later);
      var a, b := NewChan(name, now), NewChan(name', later);
      NobodyInNewChannels(h, name, now, p, name', later);
      TwinsEnter(h, a, id, p, b, pid, a.FounderFlags(), b.FounderFlags());
    }
  }

  lemma BothValid(h: WorldState, server: string, p: WorldState)
    requires SameNicks(h, server, p)
    ensures h.Valid() && p.Valid() && h.mapping == p.mapping && ServerName(server)
  {
  }

  lemma AgreeLater(h: WorldState, a: ChanState, p: WorldState, b: ChanState, h': WorldState, p': WorldState,
                   a': ChanState)
    requires CopiesAgree(h, a, p, b) && SameUsers(h, h') && SameUsers(p, p') && a' == a.(invites := a'.invites)
    ensures CopiesAgree(h', a', p', b)
  {
    hide SameViews;
    SameViewsLater(h, a, p, b, h', p');
    InvitesDoNotShow(h', a, p', b, a');
  }

  lemma InvitesDoNotShow(h: WorldState, a: ChanState, p: WorldState, b: ChanState, a': ChanState)
    requires SameViews(h, a, p, b) && a' == a.(invites := a'.invites)
    ensures SameViews(h, a', p, b)
  {
    SameMembersKeepViews(h, a, p, b, a', b);
  }

  /** What joining does at home: nothing to see, or a new member. */
  lemma JoinAtHome(h: WorldState, c: Command, name: string)
    requires h.Valid() && JoinsAs(h, c, name) && name != ""
    ensures var h' := Exec(h, c);
            && h'.FindChannel(name).Some?
            && var ch' := h'.FindChannel(name).value;
               if IsMember(h, name, c.id) || !IsMember(h', name, c.id) then
                 && h.FindChannel(name).Some? && h' == Changed(h, name, ch')
                 && ch' == h.FindChannel(name).value.(invites := ch'.invites)
               else
                 && h' == Changed(h, name, ch') && ch' == h.JoinedChan(c.id, name, c.now).(invites := ch'.invites)
                 && ch'.name == if h.FindChannel(name).Some? then h.FindChannel(name).value.name else name
  {
    if h.FindChannel(name).None? {
      JoinFounds(h, c, name);
      FoundedAtHome(h, c, name);
    } else if IsMember(h, name, c.id) {
      MemberKnocks(h, c, name);
    } else {
      hide MatchesAny, Welcome, FinalName;
      var ch := h.FindChannel(name).value;
      JoinExactly(h, c, name);
      ArrivalIsEntry(h, ch, c.id, name, c.now);
    }
  }

  lemma FoundedAtHome(h: WorldState, c: Command, name: string)
    requires JoinsAs(h, c, name) && h.FindChannel(name).None? && name != ""
    ensures Exec(h, c) == Changed(h, name, h.JoinedChan(c.id, name, c.now))
  {
  }

  /** A join of a member uses up an invitation at most. */
  lemma MemberKnocks(h: WorldState, c: Command, name: string)
    requires h.Valid() && JoinsAs(h, c, name) && IsMember(h, name, c.id)
    ensures var ch, h' := h.FindChannel(name).value, Exec(h, c);
            && h'.FindChannel(name).Some?
            && var ch' := h'.FindChannel(name).value;
               h' == Changed(h, name, ch') && ch' == ch.(invites := ch'.invites)
  {
    hide MatchesAny, FinalName;
  }

  /** The lines after the joiner's node has told its peer. */
  lemma JoinedFollows(h: WorldState, server: string, p: WorldState, h': WorldState, id: UserID, pid: UserID,
                      name: string,
                      name': string, now: Int64, later: Int64)
    requires Mirrors(h, server, p) && Twins(h, id, p, pid) && h.Key(name) == p.Key(name') && name != "" && name' != ""
    requires Covered(h.Key(name)) ==> if h.Key(name) in h.chans then id !in h.chans[h.Key(name)].members
             else name == name'
    requires h'.FindChannel(name).Some? && h' == Changed(h, name, h'.FindChannel(name).value)
    requires var ch' := h'.FindChannel(name).value; ch' == h.JoinedChan(id, name, now).(invites := ch'.invites)
    requires h.Key(h'.FindChannel(name).value.name) == h.Key(name)
    ensures Mirrors(h', server, p.JoinChannel(pid, name', later))
  {
    hide SameNicks, SameViews, WorldState.JoinedChan, WorldState.UsersValid;
    BothValid(h, server, p);
    var c, p' := h.Key(name), p.JoinChannel(pid, name', later);
    JoinsOnlyAt(p, pid, name', later);
    if Covered(c) {
      TwinsJoin(h, server, p, id, pid, name, name', now, later);
      AgreeLater(h, h.JoinedChan(id, name, now), p, p.JoinedChan(pid, name', later), h', p', h'.chans[c]);
    }
    OneChanged(h, server, p, h', p', c);
  }

  /** Invitations are not mirrored. */
  lemma InvitesFollow(h: WorldState, server: string, p: WorldState, h': WorldState, name: string)
    requires Mirrors(h, server, p) && h.FindChannel(name).Some? && h'.FindChannel(name).Some?
    requires h' == Changed(h, name, h'.FindChannel(name).value)
    requires var ch, ch' := h.FindChannel(name).value, h'.FindChannel(name).value; ch' == ch.(invites := ch'.invites)
    ensures Mirrors(h', server, p)
  {
    hide SameNicks, SameViews, WorldState.UsersValid;
    BothValid(h, server, p);
    var c := h.Key(name);
    if Covered(c) {
      assert ChanMirrored(h, p, c);
      AgreeLater(h, h.chans[c], p, p.chans[c], h', p, h'.chans[c]);
    }
    OneChanged(h, server, p, h', p, c);
  }

  // ----- parts and kicks -----

  function PartLine(u: UserState, name: string): Message {
    Plain(u.Hostmask(), "PART", [name])
  }

  function KickLine(u: UserState, name: string, nick: string): Message {
    Plain(u.Hostmask(), "KICK", [name, nick, u.nick])
  }

  lemma PartLineHandled(p: WorldState, local: string, peer: string, u: UserState, name: string, now: Int64)
    requires p.FindByNick(u.nick).Some? && p.FindByNick(u.nick).value.IsRemote() && '!' !in u.nick
    ensures Handle(p, local, peer, PartLine(u, name), now).w
         == p.PartChannel(p.FindByNick(u.nick).value.id, name)
  {
    assert VerbOf("PART") == PartVerb;
    SenderIsNick(u);
  }

  lemma KickLineHandled(p: WorldState, local: string, peer: string, u: UserState, name: string, nick: string,
                        now: Int64)
    requires p.FindByNick(nick).Some?
    ensures Handle(p, local, peer, KickLine(u, name, nick), now).w
         == p.PartChannel(p.FindByNick(nick).value.id, name)
  {
    assert VerbOf("KICK") == KickVerb;
  }

  lemma WithoutOnlyAt(w: WorldState, name: string, id: UserID)
    requires w.Valid() && w.FindChannel(name).Some?
    ensures OnlyAt(w, Without(w, name, id), w.Key(name))
  {
  }

  lemma PartsOnlyAt(w: WorldState, id: UserID, name: string)
    requires w.Valid()
    ensures OnlyAt(w, w.PartChannel(id, name), w.Key(name))
  {
  }

  lemma AgreeWithout(h: WorldState, a: ChanState, id: UserID, p: WorldState, b: ChanState, pid: UserID)
    requires h.UsersValid() && p.UsersValid() && Twins(h, id, p, pid) && CopiesAgree(h, a, p, b)
    ensures CopiesAgree(h, a.(members := a.members - {id}), p, b.(members := b.members - {pid}))
  {
    hide SameViews;
    TwinsLeave(h, a, id, p, b, pid);
  }

  /** Twins leave the same channel on both nodes. */
  lemma TwinsPart(h: WorldState, server: string, p: WorldState, id: UserID, pid: UserID, name: string, name': string)
    requires Mirrors(h, server, p) && Twins(h, id, p, pid) && h.Key(name) == p.Key(name')
    requires h.FindChannel(name).Some? && id in h.FindChannel(name).value.members && name' != ""
    ensures Mirrors(Without(h, name, id), server, p.PartChannel(pid, name'))
  {
    hide SameNicks, SameViews, WorldState.UsersValid;
    BothValid(h, server, p);
    var c := h.Key(name);
    var h', p' := Without(h, name, id), p.PartChannel(pid, name');
    WithoutOnlyAt(h, name, id);
    PartsOnlyAt(p, pid, name');
    if Covered(c) {
      assert ChanMirrored(h, p, c);
      var a, b := h.chans[c], p.chans[c];
      TwinMembers(h, a, id, p, b, pid);
      PartIsWithout(p, pid, name');
      AloneTogether(h, server, p, a, id, b, pid);
      CoveredIsPlain(h.mapping, a.name, c);
      CoveredIsPlain(p.mapping, b.name, c);
      AgreeWithout(h, a, id, p, b, pid);
      if c in h'.chans {
        AgreeLater(h, a.(members := a.members - {id}), p, b.(members := b.members - {pid}), h', p', h'.chans[c]);
      }
    }
    OneChanged(h, server, p, h', p', c);
  }

  // ----- topics -----

  function TopicLine(u: UserState, name: string, text: string): Message {
    Plain(u.Hostmask(), "TOPIC", [name, text])
  }

  lemma TopicLineHandled(p: WorldState, local: string, peer: string, u: UserState, name: string, text: string,
                         now: Int64)
    ensures Handle(p, local, peer, TopicLine(u, name, text), now).w
         == if p.FindChannel(name).None? then p
            else Changed(p, name, p.FindChannel(name).value.(topic := Topic(text, u.Hostmask(), now)))
  {
    VerbsOf();
  }

  lemma ChangedOnlyAt(w: WorldState, name: string, ch: ChanState)
    requires w.Key(ch.name) == w.Key(name)
    ensures OnlyAt(w, Changed(w, name, ch), w.Key(name))
  {
  }

  lemma SameTopicAgrees(h: WorldState, a: ChanState, p: WorldState, b: ChanState, t: Topic, t': Topic)
    requires CopiesAgree(h, a, p, b) && t.text == t'.text
    ensures CopiesAgree(h, a.(topic := t), p, b.(topic := t'))
  {
    SameMembersKeepViews(h, a, p, b, a.(topic := t), b.(topic := t'));
  }

  lemma TopicFollows(h: WorldState, server: string, p: WorldState, local: string, peer: string, u: UserState,
                     name: string, text: string, now: Int64, later: Int64)
    requires Mirrors(h, server, p) && h.FindChannel(name).Some?
    ensures var ch := h.FindChannel(name).value;
            Mirrors(Changed(h, name, ch.(topic := Topic(text, u.Hostmask(), now))), server,
                    Handle(p, local, peer, TopicLine(u, ch.name, text), later).w)
  {
    hide SameNicks, SameViews, WorldState.UsersValid, Handle, TopicLine;
    BothValid(h, server, p);
    var c, ch := h.Key(name), h.FindChannel(name).value;
    var t, t' := Topic(text, u.Hostmask(), now), Topic(text, u.Hostmask(), later);
    var h', p' := Changed(h, name, ch.(topic := t)), Handle(p, local, peer, TopicLine(u, ch.name, text), later).w;
    TopicLineHandled(p, local, peer, u, ch.name, text, later);
    assert h.Key(ch.name) == c;
    ChangedOnlyAt(h, name, ch.(topic := t));
    Unchanged(p, c);
    if p.FindChannel(ch.name).Some? {
      ChangedOnlyAt(p, ch.name, p.FindChannel(ch.name).value.(topic := t'));
    }
    if Covered(c) {
      assert ChanMirrored(h, p, c);
      CoveredIsPlain(h.mapping, ch.name, c);
      SameTopicAgrees(h, ch, p, p.chans[c], t, t');
      AgreeLater(h, ch.(topic := t), p, p.chans[c].(topic := t'), h', p', ch.(topic := t));
    }
    OneChanged(h, server, p, h', p', c);
  }

  // ----- modes -----

  lemma EchoLineHandled(p: WorldState, local: string, peer: string, hostmask: string, ch: ChanState, o: Outcome,
                        now: Int64)
    ensures Handle(p, local, peer, EchoLine(hostmask, ch, o), now).w
         == if !IsStandard(ch.name) || p.FindChannel(ch.name).None? then p
            else Changed(p, ch.name, RemoteRun(p, p.FindChannel(ch.name).value, '+', o.changes, o.params, now))
  {
    VerbsOf();
    var m := EchoLine(hostmask, ch, o);
    assert m.params[2..] == o.params && m.params[1] == o.changes && m.params[0] == ch.name;
  }

  lemma {:induction false} LocalRunKeepsTopic(w: WorldState, ch: ChanState, dir: char, word: string, args: seq<string>,
                                              now: int)
    ensures LocalRun(w, ch, dir, word, args, now).ch.topic == ch.topic
    decreases |word|
  {
    if word != "" {
      if IsSign(word[0]) {
        LocalRunKeepsTopic(w, ch, word[0], word[1..], args, now);
      } else {
        var e := LocalEffect(w, ch, dir == '+', KindOf(word[0]), args, now);
        LocalRunKeepsTopic(w, e.ch, dir, word[1..], args[e.used..], now);
      }
    }
  }

  lemma {:induction false} RemoteRunKeepsTopic(w: WorldState, ch: ChanState, dir: char, word: string, args: seq<string>,
                                               now: int)
    ensures RemoteRun(w, ch, dir, word, args, now).topic == ch.topic
    decreases |word|
  {
    if word != "" {
      if IsSign(word[0]) {
        RemoteRunKeepsTopic(w, ch, word[0], word[1..], args, now);
      } else {
        var r := RemoteEffect(w, ch, dir == '+', KindOf(word[0]), args, now);
        RemoteRunKeepsTopic(w, r.0, dir, word[1..], args[r.1..], now);
      }
    }
  }

  /** A replicable echo keeps the copies of a standard channel in agreement, topic and members included. */
  lemma EchoAgrees(h: WorldState, a: ChanState, p: WorldState, b: ChanState, word: string, args: seq<string>, now: int,
                   later: int)
    requires h.Valid() && p.Valid() && h.mapping == p.mapping && IsStandard(a.name) && CopiesAgree(h, a, p, b)
    requires Peopled(h, a) && Peopled(p, b)
    requires var o := LocalRun(h, a, '+', word, args, now); Replicable(o.changes, |o.params|)
    ensures var o := LocalRun(h, a, '+', word, args, now);
            var b' := RemoteRun(p, b, '+', o.changes, o.params, later);
            && CopiesAgree(h, o.ch, p, b') && o.ch.name == a.name && b'.name == b.name
            && Peopled(h, o.ch) && Peopled(p, b')
  {
    hide SameViews, SameSettings;
    var o := LocalRun(h, a, '+', word, args, now);
    EchoKeepsAgreement(h, a, p, b, word, args, now, later);
    LocalRunFrame(h, a, '+', word, args, now);
    LocalRunKeepsTopic(h, a, '+', word, args, now);
    RemoteRunFrame(p, b, '+', o.changes, o.params, later);
    RemoteRunKeepsTopic(p, b, '+', o.changes, o.params, later);
    assert o.ch.members.Keys == a.members.Keys;
    assert RemoteRun(p, b, '+', o.changes, o.params, later).members.Keys == b.members.Keys;
  }

  /** The peer after the echo, which is sent if it is not empty. */
  function AfterEcho(p: WorldState, local: string, peer: string, hostmask: string, ch: ChanState, o: Outcome,
                     later: Int64): WorldState
  {
    if o.changes == "" then p else Handle(p, local, peer, EchoLine(hostmask, ch, o), later).w
  }

  lemma EchoAtPeer(p: WorldState, local: string, peer: string, hostmask: string, ch: ChanState, o: Outcome,
                   later: Int64)
    requires p.Valid() && ch.name != ""
    ensures var p', c := AfterEcho(p, local, peer, hostmask, ch, o, later), p.Key(ch.name);
            && OnlyAt(p, p', c)
            && (IsStandard(ch.name) && c in p.chans ==>
                  c in p'.chans && p'.chans[c] == RemoteRun(p, p.chans[c], '+', o.changes, o.params, later))
  {
    var c := p.Key(ch.name);
    EchoLineHandled(p, local, peer, hostmask, ch, o, later);
    Unchanged(p, c);
    if c in p.chans {
      RemoteRunFrame(p, p.chans[c], '+', o.changes, o.params, later);
    }
  }

  lemma ModeFollows(h: WorldState, server: string, p: WorldState, local: string, peer: string, hostmask: string,
                    name: string, word: string, args: seq<string>, now: int, later: Int64)
    requires Mirrors(h, server, p) && h.FindChannel(name).Some? && !IsModeless(h.FindChannel(name).value.name)
    requires var o := LocalRun(h, h.FindChannel(name).value, '+', word, args, now); Replicable(o.changes, |o.params|)
    ensures var ch := h.FindChannel(name).value;
            var o := LocalRun(h, ch, '+', word, args, now);
            Mirrors(Changed(h, name, o.ch), server, AfterEcho(p, local, peer, hostmask, ch, o, later))
  {
    hide SameNicks, SameViews, WorldState.UsersValid, AfterEcho, Replicable;
    BothValid(h, server, p);
    var c, ch := h.Key(name), h.FindChannel(name).value;
    var o := LocalRun(h, ch, '+', word, args, now);
    var h', p' := Changed(h, name, o.ch), AfterEcho(p, local, peer, hostmask, ch, o, later);
    assert h.Key(ch.name) == c && |c| == |ch.name|;
    LocalRunFrame(h, ch, '+', word, args, now);
    ChangedOnlyAt(h, name, o.ch);
    EchoAtPeer(p, local, peer, hostmask, ch, o, later);
    if Covered(c) {
      assert ChanMirrored(h, p, c);
      CoveredIsPlain(h.mapping, ch.name, c);
      EchoAgrees(h, ch, p, p.chans[c], word, args, now, later);
      AgreeLater(h, o.ch, p, p'.chans[c], h', p', o.ch);
    }
    OneChanged(h, server, p, h', p', c);
  }

  // ----- users -----

  lemma NewUserUnseen(w: WorldState, u: UserState, ch: ChanState, n: string)
    requires w.Valid() && w.CanAdd(u) && Peopled(w, ch)
    ensures MemberView(w.AddUser(u), ch, n) == MemberView(w, ch, n)
  {
    FindAfterAdd(w, u, n);
  }

  lemma RegisteredNick(h: WorldState, server: string, p: WorldState, u: UserState, later: Int64, n: string)
    requires SameNicks(h, server, p) && h.CanAdd(u) && p.CanAdd(RemoteCopy(u, server, later))
    ensures NickMirrored(h.AddUser(u), server, p.AddUser(RemoteCopy(u, server, later)), n)
  {
    hide RemoteCopy, IsCopy, WorldState.AddUser;
    assert NickMirrored(h, server, p, n);
    CopyFields(u, server, later);
    FindAfterAdd(h, u, n);
    FindAfterAdd(p, RemoteCopy(u, server, later), n);
    AddedIsCopy(u, server, later, h.lastId + 1, p.lastId + 1);
  }

  lemma RegisteredNicks(h: WorldState, server: string, p: WorldState, u: UserState, later: Int64)
    requires SameNicks(h, server, p) && h.CanAdd(u) && '!' !in u.nick
    ensures p.CanAdd(RemoteCopy(u, server, later))
    ensures SameNicks(h.AddUser(u), server, p.AddUser(RemoteCopy(u, server, later)))
  {
    hide RemoteCopy, NickMirrored;
    CopyFields(u, server, later);
    FreeNickMirrored(h, server, p, u);
    AddUserKeeps(h, u);
    AddUserKeeps(p, RemoteCopy(u, server, later));
    forall n: string ensures NickMirrored(h.AddUser(u), server, p.AddUser(RemoteCopy(u, server, later)), n) {
      RegisteredNick(h, server, p, u, later, n);
    }
  }

  lemma FreeNickMirrored(h: WorldState, server: string, p: WorldState, u: UserState)
    requires SameNicks(h, server, p) && h.CanAdd(u)
    ensures p.FindByNick(u.nick).None? && p.Key(u.nick) !in p.nicks
  {
    assert NickMirrored(h, server, p, u.nick);
  }

  lemma RegisteredViews(h: WorldState, p: WorldState, u: UserState, v: UserState, a: ChanState, b: ChanState)
    requires h.Valid() && p.Valid() && h.CanAdd(u) && p.CanAdd(v) && Peopled(h, a) && Peopled(p, b)
    requires SameViews(h, a, p, b)
    ensures SameViews(h.AddUser(u), a, p.AddUser(v), b)
  {
    hide WorldState.AddUser, MemberView;
    forall n: string ensures MemberView(h.AddUser(u), a, n) == MemberView(p.AddUser(v), b, n) {
      assert MemberView(h, a, n) == MemberView(p, b, n);
      NewUserUnseen(h, u, a, n);
      NewUserUnseen(p, v, b, n);
    }
  }

  lemma RegisterFollows(h: WorldState, server: string, p: WorldState, local: string, peer: string, u: UserState,
                        later: Int64)
    requires Mirrors(h, server, p) && h.CanAdd(u) && '!' !in u.nick
    ensures Mirrors(h.AddUser(u), server, Handle(p, local, peer, UserLine(u, server), later).w)
  {
    hide RemoteCopy, Handle, UserLine, SameNicks, SameViews, WorldState.Valid;
    var v := RemoteCopy(u, server, later);
    var h', p' := h.AddUser(u), p.AddUser(v);
    BothValid(h, server, p);
    FreeNickMirrored(h, server, p, u);
    UserLineEffect(p, local, peer, u, server, later);
    RegisteredNicks(h, server, p, u, later);
    forall c: string | Covered(c) ensures ChanMirrored(h', p', c) {
      assert ChanMirrored(h, p, c);
      if c in h.chans {
        RegisteredViews(h, p, u, v, h.chans[c], p.chans[c]);
      }
    }
  }

  lemma CopyFields(u: UserState, server: string, at: Int64)
    ensures RemoteCopy(u, server, at).nick == u.nick
  {
  }

  lemma AddedIsCopy(u: UserState, server: string, at: Int64, id: UserID, pid: UserID)
    ensures IsCopy(RemoteCopy(u, server, at).(id := pid), u.(id := id), server)
  {
  }

  lemma RenamedNick(h: WorldState, server: string, p: WorldState, id: UserID, pid: UserID, nick: string, n: string)
    requires SameNicks(h, server, p) && IsLocal(h, id) && h.CanRename(id, nick) && p.CanRename(pid, nick)
    requires p.users[pid].nick == h.users[id].nick && IsCopy(p.users[pid], h.users[id], server)
    ensures NickMirrored(h.RenameUser(id, nick), server, p.RenameUser(pid, nick), n)
  {
    hide IsCopy, WorldState.RenameUser;
    assert NickMirrored(h, server, p, n);
    RenameFinds(h, id, nick, n);
    RenameFinds(p, pid, nick, n);
    RenamedCopy(p.users[pid], h.users[id], server, nick);
  }

  lemma RenamedNicks(h: WorldState, server: string, p: WorldState, id: UserID, pid: UserID, nick: string)
    requires SameNicks(h, server, p) && IsLocal(h, id) && h.CanRename(id, nick) && p.CanRename(pid, nick)
             && '!' !in nick
    requires p.users[pid].nick == h.users[id].nick && IsCopy(p.users[pid], h.users[id], server)
    ensures SameNicks(h.RenameUser(id, nick), server, p.RenameUser(pid, nick))
  {
    hide IsCopy, NickMirrored;
    RenameUserKeeps(h, id, nick);
    RenameUserKeeps(p, pid, nick);
    forall n: string ensures NickMirrored(h.RenameUser(id, nick), server, p.RenameUser(pid, nick), n) {
      RenamedNick(h, server, p, id, pid, nick, n);
    }
  }

  lemma CopyCanRename(h: WorldState, server: string, p: WorldState, id: UserID, pid: UserID, nick: string)
    requires SameNicks(h, server, p) && h.CanRename(id, nick) && Twins(h, id, p, pid)
    ensures p.CanRename(pid, nick)
  {
    assert NickMirrored(h, server, p, nick);
  }

  lemma NickFollows(h: WorldState, server: string, p: WorldState, local: string, peer: string, id: UserID, nick: string,
                    later: Int64)
    requires Mirrors(h, server, p) && IsLocal(h, id) && h.CanRename(id, nick) && '!' !in nick
    ensures Mirrors(h.RenameUser(id, nick), server, Handle(p, local, peer, NickLine(h.users[id], nick), later).w)
  {
    hide Handle, IsCopy, SameViews, SameSettings, SameNicks, WorldState.UsersValid, NickLine, Covered;
    BothValid(h, server, p);
    var pid := TwinOf(h, server, p, id);
    LocalNickIsPlain(h, server, p, id);
    NickLineHandled(p, local, peer, h.users[id], server, nick, later);
    CopyHasNick(p, h.users[id], server);
    CopyCanRename(h, server, p, id, pid, nick);
    RenamedNicks(h, server, p, id, pid, nick);
    forall c: string | Covered(c) ensures ChanMirrored(h.RenameUser(id, nick), p.RenameUser(pid, nick), c) {
      assert ChanMirrored(h, p, c);
      if c in h.chans {
        RenamedViews(h, id, p, pid, nick, h.chans[c], p.chans[c]);
      }
    }
  }

  lemma LocalNickIsPlain(h: WorldState, server: string, p: WorldState, id: UserID)
    requires SameNicks(h, server, p) && IsLocal(h, id)
    ensures '!' !in h.users[id].nick && server != ""
  {
  }

  // ----- quits -----

  function QuitLine(u: UserState): Message {
    Plain(u.Hostmask(), "QUIT", ["Client closed connection"])
  }

  lemma QuitLineHandled(p: WorldState, local: string, peer: string, u: UserState, now: Int64)
    requires p.FindByNick(u.nick).Some? && p.FindByNick(u.nick).value.IsRemote() && '!' !in u.nick
    ensures Handle(p, local, peer, QuitLine(u), now).w == p.RemoveUser(p.FindByNick(u.nick).value.id)
  {
    VerbsOf();
    SenderIsNick(u);
  }

  lemma RemovedFinds(w: WorldState, id: UserID, n: string)
    requires w.UsersValid() && id in w.users
    ensures w.RemoveUser(id).FindByNick(n)
         == if w.Key(n) == w.Key(w.users[id].nick) then None else w.FindByNick(n)
  {
  }

  lemma QuitFinds(w: WorldState, id: UserID, n: string)
    requires w.UsersValid() && id in w.users
    ensures w.Quit(id).FindByNick(n) == if w.Key(n) == w.Key(w.users[id].nick) then None else w.FindByNick(n)
  {
    hide WorldState.RemoveUser;
    SameUsersValid(w, w.PartAll(id));
    RemovedFinds(w.PartAll(id), id, n);
  }

  lemma RemovedNicks(h: WorldState, server: string, p: WorldState, id: UserID, pid: UserID)
    requires SameNicks(h, server, p) && Twins(h, id, p, pid)
    ensures SameNicks(h.Quit(id), server, p.RemoveUser(pid))
  {
    hide IsCopy;
    QuitValid(h, id);
    RemoveUserKeeps(p, pid);
    hide WorldState.UsersValid;
    assert h.Quit(id).users == h.users - {id};
    forall n: string ensures NickMirrored(h.Quit(id), server, p.RemoveUser(pid), n) {
      assert NickMirrored(h, server, p, n);
      QuitFinds(h, id, n);
      RemovedFinds(p, pid, n);
    }
  }

  /** The user is in no channel whose modes are replicated. */
  ghost predicate InNone(h: WorldState, id: UserID) {
    forall c: string :: Covered(c) && c in h.chans ==> id !in h.chans[c].members
  }

  lemma RemovedViews(h: WorldState, a: ChanState, id: UserID, p: WorldState, b: ChanState, pid: UserID)
    requires h.UsersValid() && p.UsersValid() && Twins(h, id, p, pid) && SameViews(h, a, p, b)
    ensures SameViews(h.Quit(id), a, p.RemoveUser(pid), b)
  {
    hide WorldState.Quit, WorldState.RemoveUser;
    forall n: string ensures MemberView(h.Quit(id), a, n) == MemberView(p.RemoveUser(pid), b, n) {
      assert MemberView(h, a, n) == MemberView(p, b, n);
      QuitFinds(h, id, n);
      RemovedFinds(p, pid, n);
    }
  }

  lemma QuitLeavesAlone(h: WorldState, id: UserID, c: string)
    requires h.Valid() && id in h.users && (c in h.chans ==> id !in h.chans[c].members)
    ensures c in h.Quit(id).chans <==> c in h.chans
    ensures c in h.chans ==> h.Quit(id).chans[c] == h.chans[c]
  {
    if c in h.chans {
      assert h.chans[c].members - {id} == h.chans[c].members;
    }
  }

  lemma QuitChan(h: WorldState, server: string, p: WorldState, id: UserID, pid: UserID, c: string)
    requires Mirrors(h, server, p) && Twins(h, id, p, pid) && InNone(h, id) && Covered(c)
    ensures ChanMirrored(h.Quit(id), p.RemoveUser(pid), c)
  {
    hide SameViews, WorldState.UsersValid, SameNicks, WorldState.Quit, SameSettings;
    BothValid(h, server, p);
    assert ChanMirrored(h, p, c);
    QuitLeavesAlone(h, id, c);
    if c in h.chans {
      QuitMembers(h, id, p, pid);
      TwinMembers(h, h.chans[c], id, p, p.chans[c], pid);
      RemovedViews(h, h.chans[c], id, p, p.chans[c], pid);
    }
  }

  lemma QuitMembers(h: WorldState, id: UserID, p: WorldState, pid: UserID)
    ensures h.Quit(id).users == h.users - {id} && p.RemoveUser(pid).users == p.users - {pid}
    ensures p.RemoveUser(pid).chans == p.chans
  {
  }

  /** The QUIT of a closing connection takes the user's record off the peer and not the memberships. So the peer is
      a mirror afterwards if and only if the user had left all channels before. */
  lemma QuitFollows(h: WorldState, server: string, p: WorldState, local: string, peer: string, id: UserID, later: Int64)
    requires Mirrors(h, server, p) && IsLocal(h, id)
    ensures Mirrors(h.Quit(id), server, Handle(p, local, peer, QuitLine(h.users[id]), later).w) <==> InNone(h, id)
  {
    hide SameNicks, Handle, SameViews, WorldState.Quit, WorldState.RemoveUser, SameSettings, IsCopy;
    BothValid(h, server, p);
    var pid := TwinOf(h, server, p, id);
    LocalNickIsPlain(h, server, p, id);
    QuitLineHandled(p, local, peer, h.users[id], later);
    QuitMembers(h, id, p, pid);
    if InNone(h, id) {
      RemovedNicks(h, server, p, id, pid);
      forall c: string | Covered(c) ensures ChanMirrored(h.Quit(id), p.RemoveUser(pid), c) {
        QuitChan(h, server, p, id, pid, c);
      }
    } else {
      var c: string :| Covered(c) && c in h.chans && id in h.chans[c].members;
      assert ChanMirrored(h, p, c);
      TwinMembers(h, h.chans[c], id, p, p.chans[c], pid);
      assert !ChanMirrored(h.Quit(id), p.RemoveUser(pid), c);
    }
  }

  // ----- runs -----

  /** The lines that the home node forwards because of a command. */
  ghost function Forwarded(h: WorldState, server: string, c: Command): seq<Message> {
    match c
    case Register(u) => if h.CanAdd(u) then [UserLine(u, server)] else []
    case Nick(id, nick) => if h.CanRename(id, nick) then [NickLine(h.users[id], nick)] else []
    case Join(id, _, _, _, _, _, _) =>
      if id !in h.users || FinalName(h, c).None? then []
      else
        var name := FinalName(h, c).value;
        if IsMember(h, name, id) || !IsMember(Exec(h, c), name, id) then []
        else [JoinedLine(h.users[id], Exec(h, c).FindChannel(name).value.name)]
    case Part(id, name) =>
      if id !in h.users || !IsMember(h, name, id) then []
      else [PartLine(h.users[id], h.FindChannel(name).value.name)]
    case Kick(id, name, nick) =>
      if id !in h.users || !IsMember(h, name, id) || !h.FindChannel(name).value.members[id].IsOp() then []
      else if h.FindByNick(nick).None? || !IsMember(h, name, h.FindByNick(nick).value.id) then []
      else [KickLine(h.users[id], h.FindChannel(name).value.name, h.FindByNick(nick).value.nick)]
    case Mode(id, name, params, now) =>
      if id !in h.users || params == [] || !MaySetModes(h, id, name) then []
      else
        var ch := h.FindChannel(name).value;
        var o := LocalRun(h, ch, '+', params[0], params[1..], now);
        if o.changes == "" then [] else [EchoLine(h.users[id].Hostmask(), ch, o)]
    case SetTopic(id, name, text, _) =>
      if id !in h.users || !IsMember(h, name, id) then []
      else
        var ch := h.FindChannel(name).value;
        if ch.modes.topicLocked && !ch.members[id].IsOp() then [] else [TopicLine(h.users[id], ch.name, text)]
    case Invite(_, _, _) => []
    case Close(id) => if id in h.users then [QuitLine(h.users[id])] else []
  }

  /** A command of a client of the home node that a peer can follow: nicks have no '!', the echo of a mode line is
      replicable, and users leave their channels before they close. */
  ghost predicate Followable(h: WorldState, c: Command) {
    match c
    case Register(u) => '!' !in u.nick
    case Nick(id, nick) => IsLocal(h, id) && '!' !in nick
    case Mode(id, name, params, now) =>
      && IsLocal(h, id)
      && (params != [] && MaySetModes(h, id, name) ==>
            var o := LocalRun(h, h.FindChannel(name).value, '+', params[0], params[1..], now);
            Replicable(o.changes, |o.params|))
    case Close(id) => IsLocal(h, id) && InNone(h, id)
    case _ => IsLocal(h, c.id)
  }

  /** The peer after the lines of one command. */
  ghost function Followed(h: WorldState, server: string, p: WorldState, local: string, peer: string, c: Command,
                          later: Int64): WorldState
  {
    var lines := Forwarded(h, server, c);
    if lines == [] then p else Handle(p, local, peer, lines[0], later).w
  }

  lemma JoinIsFollowed(h: WorldState, server: string, p: WorldState, local: string, peer: string, c: Command,
                       later: Int64)
    requires Mirrors(h, server, p) && c.Join? && IsLocal(h, c.id)
    ensures Mirrors(Exec(h, c), server, Followed(h, server, p, local, peer, c, later))
  {
    hide SameNicks, Handle, SameViews, ChanMirrored, IsCopy, WorldState.JoinedChan;
    BothValid(h, server, p);
    if FinalName(h, c).Some? {
      var name := FinalName(h, c).value;
      Safety.FinalNameNonEmpty(h, c);
      JoinAtHome(h, c, name);
      var h' := Exec(h, c);
      if IsMember(h, name, c.id) || !IsMember(h', name, c.id) {
        InvitesFollow(h, server, p, h', name);
      } else {
        var pid := TwinOf(h, server, p, c.id);
        LocalNickIsPlain(h, server, p, c.id);
        var name' := h'.FindChannel(name).value.name;
        assert h.Key(name') == h.Key(name) && |name'| == |h.Key(name)|;
        JoinedLineHandled(p, local, peer, h.users[c.id], name', later);
        JoinedFollows(h, server, p, h', c.id, pid, name, name', c.now, later);
      }
    }
  }

  lemma PartIsFollowed(h: WorldState, server: string, p: WorldState, local: string, peer: string, id: UserID,
                       name: string, later: Int64)
    requires Mirrors(h, server, p) && IsLocal(h, id)
    ensures Mirrors(Exec(h, Part(id, name)), server, Followed(h, server, p, local, peer, Part(id, name), later))
  {
    hide SameNicks, Handle, SameViews, ChanMirrored, IsCopy, Without;
    BothValid(h, server, p);
    if IsMember(h, name, id) {
      var pid := TwinOf(h, server, p, id);
      LocalNickIsPlain(h, server, p, id);
      var name' := h.FindChannel(name).value.name;
      assert h.Key(name') == h.Key(name) && |name'| == |h.Key(name)|;
      PartLineHandled(p, local, peer, h.users[id], name', later);
      PartExactly(h, id, name);
      TwinsPart(h, server, p, id, pid, name, name');
    }
  }

  lemma KickIsFollowed(h: WorldState, server: string, p: WorldState, local: string, peer: string, id: UserID,
                       name: string, nick: string, later: Int64)
    requires Mirrors(h, server, p) && IsLocal(h, id)
    ensures Mirrors(Exec(h, Kick(id, name, nick)), server,
                    Followed(h, server, p, local, peer, Kick(id, name, nick), later))
  {
    hide SameNicks, Handle, SameViews, ChanMirrored, IsCopy, Without;
    BothValid(h, server, p);
    if h.FindChannel(name).Some? && h.FindByNick(nick).Some? {
      KickExactly(h, id, name, nick);
      var target := h.FindByNick(nick).value;
      FoundHasKey(h, nick);
      if IsMember(h, name, id) && h.FindChannel(name).value.members[id].IsOp() && IsMember(h, name, target.id) {
        var pid := TwinOf(h, server, p, target.id);
        var name' := h.FindChannel(name).value.name;
        assert h.Key(name') == h.Key(name) && |name'| == |h.Key(name)|;
        KickLineHandled(p, local, peer, h.users[id], name', target.nick, later);
        TwinsPart(h, server, p, target.id, pid, name, name');
      }
    }
  }

  lemma SettingIsFollowed(h: WorldState, server: string, p: WorldState, local: string, peer: string, c: Command,
                          later: Int64)
    requires Mirrors(h, server, p) && Followable(h, c) && (c.Mode? || c.SetTopic? || c.Invite?)
    ensures Mirrors(Exec(h, c), server, Followed(h, server, p, local, peer, c, later))
  {
    hide SameNicks, Handle, SameViews, ChanMirrored, Replicable, MaySpeak;
    match c
    case Mode(id, name, params, now) =>
      if params != [] && MaySetModes(h, id, name) {
        ModeFollows(h, server, p, local, peer, h.users[id].Hostmask(), name, params[0], params[1..], now, later);
      }
    case SetTopic(id, name, text, now) =>
      if h.FindChannel(name).Some? {
        TopicExactly(h, id, name, text, now);
        TopicFollows(h, server, p, local, peer, h.users[id], name, text, now, later);
      }
    case Invite(id, nick, name) =>
      if h.FindChannel(name).Some? && h.FindByNick(nick).Some? {
        InviteExactly(h, id, nick, name);
        InvitesFollow(h, server, p, Exec(h, c), name);
      }
  }

  lemma UserIsFollowed(h: WorldState, server: string, p: WorldState, local: string, peer: string, c: Command,
                       later: Int64)
    requires Mirrors(h, server, p) && Followable(h, c) && (c.Register? || c.Nick? || c.Close?)
    ensures Mirrors(Exec(h, c), server, Followed(h, server, p, local, peer, c, later))
  {
    hide Mirrors, Handle, WorldState.CanAdd, WorldState.CanRename, InNone;
    match c
    case Register(u) =>
      if h.CanAdd(u) {
        RegisterFollows(h, server, p, local, peer, u, later);
      } else {
        NotAdded(h, u);
      }
    case Nick(id, nick) =>
      if h.CanRename(id, nick) {
        NickFollows(h, server, p, local, peer, id, nick, later);
      } else {
        NotRenamed(h, id, nick);
      }
    case Close(id) => QuitFollows(h, server, p, local, peer, id, later);
  }

  lemma NotAdded(h: WorldState, u: UserState)
    requires !h.CanAdd(u)
    ensures h.AddUser(u) == h
  {
  }

  lemma NotRenamed(h: WorldState, id: UserID, nick: string)
    requires !h.CanRename(id, nick)
    ensures h.RenameUser(id, nick) == h
  {
  }

  /** Whatever a client does, the peer that handles the line is a mirror again. */
  lemma CommandIsFollowed(h: WorldState, server: string, p: WorldState, local: string, peer: string, c: Command,
                          later: Int64)
    requires Mirrors(h, server, p) && Followable(h, c)
    ensures Mirrors(Exec(h, c), server, Followed(h, server, p, local, peer, c, later))
  {
    hide Mirrors, Exec, Followed;
    match c
    case Join(_, _, _, _, _, _, _) => JoinIsFollowed(h, server, p, local, peer, c, later);
    case Part(id, name) => PartIsFollowed(h, server, p, local, peer, id, name, later);
    case Kick(id, name, nick) => KickIsFollowed(h, server, p, local, peer, id, name, nick, later);
    case Mode(_, _, _, _) => SettingIsFollowed(h, server, p, local, peer, c, later);
    case SetTopic(_, _, _, _) => SettingIsFollowed(h, server, p, local, peer, c, later);
    case Invite(_, _, _) => SettingIsFollowed(h, server, p, local, peer, c, later);
    case _ => UserIsFollowed(h, server, p, local, peer, c, later);
  }

  ghost predicate AllFollowable(h: WorldState, cs: seq<Command>)
    decreases |cs|
  {
    cs == [] || (Followable(h, cs[0]) && AllFollowable(Exec(h, cs[0]), cs[1..]))
  }

  ghost function HomeAfter(h: WorldState, cs: seq<Command>): WorldState
    decreases |cs|
  {
    if cs == [] then h else HomeAfter(Exec(h, cs[0]), cs[1..])
  }

  /** The peer handles the lines of command number k at time clock(k). */
  ghost function PeerAfter(h: WorldState, server: string, p: WorldState, local: string, peer: string, cs: seq<Command>,
                           clock: nat -> Int64, k: nat): WorldState
    decreases |cs|
  {
    if cs == [] then p
    else PeerAfter(Exec(h, cs[0]), server, Followed(h, server, p, local, peer, cs[0], clock(k)), local, peer, cs[1..],
                   clock, k + 1)
  }

  /** Over every run of followable commands on the home node the peer stays a mirror. */
  lemma {:induction false} RunIsMirrored(h: WorldState, server: string, p: WorldState, local: string, peer: string,
                                         cs: seq<Command>, clock: nat -> Int64, k: nat)
    requires Mirrors(h, server, p) && AllFollowable(h, cs)
    ensures Mirrors(HomeAfter(h, cs), server, PeerAfter(h, server, p, local, peer, cs, clock, k))
    decreases |cs|
  {
    hide Mirrors, Followable, Followed, Exec;
    if cs != [] {
      CommandIsFollowed(h, server, p, local, peer, cs[0], clock(k));
      RunIsMirrored(Exec(h, cs[0]), server, Followed(h, server, p, local, peer, cs[0], clock(k)), local, peer, cs[1..],
                    clock, k + 1);
    }
  }

  /** Two new nodes are mirrors of each other. */
  lemma NewNodesMirror(mapping: CaseMapping, server: string)
    requires ServerName(server)
    ensures Mirrors(NewWorld(mapping), server, NewWorld(mapping))
  {
  }

  // ----- what a QUIT leaves behind -----

  /** The peer still has the channel that went at home with its last member, and the record of that member in it. */
  lemma GhostStays(h: WorldState, server: string, p: WorldState, id: UserID, pid: UserID, c: string)
    requires Mirrors(h, server, p) && Twins(h, id, p, pid) && Covered(c) && c in h.chans
    requires h.chans[c].members.Keys == {id}
    ensures c !in h.Quit(id).chans && p.RemoveUser(pid).chans == p.chans
    ensures c in p.chans && p.chans[c].members.Keys == {pid}
  {
    hide SameNicks, SameViews, WorldState.UsersValid;
    BothValid(h, server, p);
    assert ChanMirrored(h, p, c);
    CoveredIsPlain(h.mapping, h.chans[c].name, c);
    CloseExactly(h, id, c);
    assert id in h.chans[c].members.Keys;
    TwinMembers(h, h.chans[c], id, p, p.chans[c], pid);
    AloneTogether(h, server, p, h.chans[c], id, p.chans[c], pid);
  }

  lemma LateJoinerAtPeer(p: WorldState, qid: UserID, name: string, now: Int64)
    requires p.Valid() && qid in p.users && Covered(p.Key(name)) && p.Key(name) in p.chans
    requires qid !in p.chans[p.Key(name)].members
    ensures var p' := p.JoinChannel(qid, name, now);
            && p'.FindChannel(name).Some? && MemberView(p', p'.FindChannel(name).value, p.users[qid].nick)
                                             == Some((false, false))
  {
    PlainJoin(p, qid, name, now);
    CoveredIsPlain(p.mapping, name, p.Key(name));
    var p' := p.JoinChannel(qid, name, now);
    SameUsersValid(p, p');
    ViewOfUser(p', p'.chans[p.Key(name)], qid, p.users[qid].nick);
  }

  /** A user founds a channel at home that the peer has. */
  lemma LateJoin(h: WorldState, server: string, p: WorldState, local: string, peer: string, c: Command, qid: UserID,
                 name: string, later: Int64)
    requires JoinsAs(h, c, name) && h.FindChannel(name).None? && IsStandard(name) && '!' !in h.users[c.id].nick
    requires p.Valid() && qid in p.users && p.users[qid].id == qid && p.users[qid].IsRemote()
    requires p.users[qid].nick == h.users[c.id].nick && p.FindByNick(p.users[qid].nick) == Some(p.users[qid])
    requires p.Key(name) in p.chans && qid !in p.chans[p.Key(name)].members
    ensures var h', p' := Exec(h, c), Followed(h, server, p, local, peer, c, later);
            var nick := h.users[c.id].nick;
            && h'.FindChannel(name).Some? && p'.FindChannel(name).Some?
            && MemberView(h', h'.FindChannel(name).value, nick) == Some((true, false))
            && MemberView(p', p'.FindChannel(name).value, nick) == Some((false, false))
  {
    hide Handle, FinalName, WorldState.Valid, MemberView;
    StandardIsCovered(p.mapping, name);
    JoinFounds(h, c, name);
    FounderSeen(h, c, name);
    assert c.id in Exec(h, c).FindChannel(name).value.members.Keys;
    JoinedLineHandled(p, local, peer, h.users[c.id], name, later);
    LateJoinerAtPeer(p, qid, name, later);
  }

  /** The last member of a '#' or '&' channel closes its connection, and another user of the home node joins the
      channel: at home that user founds it and is its operator, and on the peer joins the channel that was left
      behind, without flags. */
  lemma QuitThenJoinDiverges(h: WorldState, server: string, p: WorldState, local: string, peer: string, id: UserID,
                             c: Command, name: string, now: Int64, later: Int64)
    requires Mirrors(h, server, p) && IsLocal(h, id) && c.Join? && IsLocal(h, c.id) && c.id != id
    requires h.FindChannel(name).Some? && h.FindChannel(name).value.members.Keys == {id} && IsStandard(name)
    requires JoinsAs(Exec(h, Close(id)), c, name)
    ensures var h1, p1 := Exec(h, Close(id)), Followed(h, server, p, local, peer, Close(id), now);
            var h2, p2 := Exec(h1, c), Followed(h1, server, p1, local, peer, c, later);
            var nick := h.users[c.id].nick;
            && h2.FindChannel(name).Some? && p2.FindChannel(name).Some?
            && MemberView(h2, h2.FindChannel(name).value, nick) == Some((true, false))
            && MemberView(p2, p2.FindChannel(name).value, nick) == Some((false, false))
  {
    hide Handle, IsCopy, FinalName, WorldState.Valid, MemberView, Mirrors, Followed, WorldState.Quit, IsStandard;
    var qid := AfterTheQuit(h, server, p, local, peer, id, c.id, name, now);
    var h1, p1 := Exec(h, Close(id)), Followed(h, server, p, local, peer, Close(id), now);
    LateJoin(h1, server, p1, local, peer, c, qid, name, later);
  }

  /** Once the last member's connection is closed, the channel is gone at home and still there on the peer, and
      another user of the home node is known to both. */
  lemma AfterTheQuit(h: WorldState, server: string, p: WorldState, local: string, peer: string, id: UserID,
                     other: UserID, name: string, now: Int64) returns (qid: UserID)
    requires Mirrors(h, server, p) && IsLocal(h, id) && IsLocal(h, other) && other != id && IsStandard(name)
    requires h.FindChannel(name).Some? && h.FindChannel(name).value.members.Keys == {id}
    ensures var h1, p1 := Exec(h, Close(id)), Followed(h, server, p, local, peer, Close(id), now);
            && h1.FindChannel(name).None? && other in h1.users && h1.users[other] == h.users[other]
            && '!' !in h.users[other].nick
            && p1.Valid() && qid in p1.users && p1.users[qid].id == qid && p1.users[qid].IsRemote()
            && p1.users[qid].nick == h.users[other].nick && p1.FindByNick(p1.users[qid].nick) == Some(p1.users[qid])
            && p1.Key(name) in p1.chans && qid !in p1.chans[p1.Key(name)].members
  {
    hide SameNicks, Handle, SameViews, IsCopy, WorldState.Valid, WorldState.Quit, WorldState.RemoveUser;
    BothValid(h, server, p);
    var pid := TwinOf(h, server, p, id);
    qid := TwinOf(h, server, p, other);
    LocalNickIsPlain(h, server, p, id);
    LocalNickIsPlain(h, server, p, other);
    CopyHasNick(p, h.users[other], server);
    QuitLineHandled(p, local, peer, h.users[id], now);
    StandardIsCovered(h.mapping, name);
    GhostStays(h, server, p, id, pid, h.Key(name));
    assert qid !in p.chans[h.Key(name)].members.Keys by {
      TwinsDiffer(h, id, other, p, pid, qid);
    }
    TwinsDiffer(h, id, other, p, pid, qid);
    QuitMembers(h, id, p, pid);
    SameMapping(h, id, p, pid);
    StillFound(p, pid, qid);
  }

  lemma SameMapping(h: WorldState, id: UserID, p: WorldState, pid: UserID)
    ensures h.Quit(id).mapping == h.mapping && p.RemoveUser(pid).mapping == p.mapping
  {
  }

  lemma StandardIsCovered(m: CaseMapping, name: string)
    requires IsStandard(name)
    ensures Covered(Fold(m, name)) && name[0] != '+' && name[0] != '!'
  {
    assert Fold(m, name)[0] == FoldByte(m, name[0]);
  }

  lemma TwinsDiffer(h: WorldState, id: UserID, other: UserID, p: WorldState, pid: UserID, qid: UserID)
    requires h.UsersValid() && Twins(h, id, p, pid) && Twins(h, other, p, qid) && id != other
    ensures pid != qid
  {
    FoundByNick(h, id);
    FoundByNick(h, other);
  }

  lemma StillFound(p: WorldState, pid: UserID, qid: UserID)
    requires p.Valid() && pid in p.users && qid in p.users && pid != qid
    ensures var p1 := p.RemoveUser(pid);
            p1.Valid() && qid in p1.users && p1.users[qid] == p.users[qid]
            && p1.FindByNick(p.users[qid].nick) == Some(p.users[qid]) && p.users[qid].id == qid
  {
    RemoveUserKeeps(p, pid);
    FoundByNick(p.RemoveUser(pid), qid);
  }

  lemma FounderSeen(h: WorldState, c: Command, name: string)
    requires JoinsAs(h, c, name) && h.FindChannel(name).None? && IsStandard(name)
    ensures var h' := Exec(h, c);
            && h'.FindChannel(name).Some?
            && MemberView(h', h'.FindChannel(name).value, h.users[c.id].nick) == Some((true, false))
  {
    JoinFounds(h, c, name);
    var h' := Exec(h, c);
    SameUsersValid(h, h');
    var ch := h'.FindChannel(name).value;
    assert c.id in ch.members.Keys;
    ViewOfUser(h', ch, c.id, h.users[c.id].nick);
  }

  // ----- from the burst on -----

  /** A node whose users are all its own, and whose '#' and '&' channels have members and are +n and +t. */
  ghost predicate Stands(h: WorldState) {
    && (forall id :: id in h.users ==> IsLocal(h, id))
    && forall c: string :: Covered(c) && c in h.chans ==> OwnChannel(h, h.chans[c]) && KeepsDefaults(h.chans[c])
  }

  ghost predicate Blank(p: WorldState) {
    p.Valid() && p.users == map[] && p.chans == map[]
  }

  lemma ReceivedNickMirrors(h: WorldState, server: string, p: WorldState, after: WorldState, n: string)
    requires h.Valid() && Blank(p) && Stands(h) && ReceivedNick(h, server, p, after, n)
    ensures NickMirrored(h, server, after, n)
  {
    hide IsCopy;
    if h.FindByNick(n).Some? {
      FoundHasKey(h, n);
    }
  }

  lemma ReplicaPeopled(h: WorldState, x: ChanState, after: WorldState, cid: map<UserID, UserID>, q: ChanState)
    requires after.Valid() && Linked(h, after, cid) && IsReplica(x, cid, q)
    ensures Peopled(after, q)
  {
    forall y | y in q.members ensures y in after.users {
      assert y in q.members.Keys;
      var id :| id in x.members && id in cid && cid[id] == y;
      assert Known(after, h.users[id]);
    }
  }

  lemma ReceivedChanMirrors(h: WorldState, server: string, p: WorldState, after: WorldState, cid: map<UserID, UserID>,
                            c: string)
    requires h.Valid() && Blank(p) && Stands(h) && h.mapping == p.mapping && Received(h, server, p, after, cid)
    requires Covered(c)
    ensures ChanMirrored(h, after, c)
  {
    hide SameSettings, SameViews, IsReplica, Ordinary, KeepsDefaults, ReceivedNick, Linked, WorldState.UsersValid;
    assert ReceivedChan(h, cid, p, after, c);
    if c in h.chans {
      var x := h.chans[c];
      OwnIsStandard(h, x);
      ReplicaAgrees(h, x, h, after, cid, after.chans[c]);
      ReplicaPeopled(h, x, after, cid, after.chans[c]);
    }
  }

  /** A peer without users and channels replays the burst of such a node, and then follows whatever its clients do:
      it is a mirror of the node all the way. */
  lemma BurstThenRun(h: WorldState, server: string, o: Order, p: WorldState, local: string, peer: string,
                     cs: seq<Command>, clock: nat -> Int64, later: nat -> Int64)
    requires Sendable(h) && Orders(o, h) && ServerName(server) && Stands(h) && Blank(p) && h.mapping == p.mapping
    requires (forall c :: c in h.chans ==> Later(clock, h.chans[c].createdAt)) && AllFollowable(h, cs)
    ensures var after := Replay(p, local, peer, BurstLines(h, server, o), clock);
            && Mirrors(h, server, after)
            && Mirrors(HomeAfter(h, cs), server, PeerAfter(h, server, after, local, peer, cs, later, 0))
  {
    hide Received, AllFollowable, Replay;
    var after, cid := BurstIsFaithful(h, server, o, p, local, peer, clock);
    ReceivedMirrors(h, server, p, after, cid);
    RunIsMirrored(h, server, after, local, peer, cs, later, 0);
  }

  lemma ReceivedMirrors(h: WorldState, server: string, p: WorldState, after: WorldState, cid: map<UserID, UserID>)
    requires Sendable(h) && ServerName(server) && Stands(h) && Blank(p) && h.mapping == p.mapping
    requires Received(h, server, p, after, cid)
    ensures Mirrors(h, server, after)
  {
    hide ReceivedNick, ReceivedChan, Linked, Stands;
    forall n: string ensures NickMirrored(h, server, after, n) {
      assert ReceivedNick(h, server, p, after, n);
      ReceivedNickMirrors(h, server, p, after, n);
    }
    forall c: string | Covered(c) ensures ChanMirrored(h, after, c) {
      ReceivedChanMirrors(h, server, p, after, cid, c);
    }
  }
}
