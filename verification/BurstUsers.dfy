/** Burst faithfulness: a peer that replays a whole burst ends up with exactly the sender's local users
    and, for every channel with a local member, a replica of it; nothing the peer held is touched. */
module BurstUsers {
  import opened Prelude
  import opened Numbers
  import opened Message
  import opened State
  import opened FedSpec

  // ----- what arrives -----

  /** The record a peer keeps of a local user of `server`. A service is stamped with its arrival time. */
  function RemoteCopy(u: UserState, server: string, at: Int64): UserState {
    if u.service then
      UserState(0, u.nick, "service", server, u.realname, "", true, server, at, true, u.serviceType,
                if u.serviceDistribution == "" then "*" else u.serviceDistribution)
    else
      UserState(0, u.nick, u.user, u.host, u.realname, u.modes, true, server, u.ts, false, "", "")
  }

  ghost predicate IsCopy(v: UserState, u: UserState, server: string) {
    v == RemoteCopy(u, server, v.ts).(id := v.id)
  }

  predicate ServerName(s: string) {
    s != "" && '!' !in s
  }

  lemma VerbsOf()
    ensures VerbOf("NICK") == NickVerb && VerbOf("SERVICE") == ServiceVerb && VerbOf("JOIN") == JoinVerb
    ensures VerbOf("TOPIC") == TopicVerb && VerbOf("MODE") == ModeVerb
    ensures VerbOf("QUIT") == QuitVerb && VerbOf("KILL") == KillVerb
  {
  }

  lemma SenderOfServer(s: string)
    requires ServerName(s)
    ensures SenderOf(s) == s
  {
    IndexOfAbsent(s, '!');
  }

  lemma NickLineEffect(w: WorldState, local: string, peer: string, u: UserState, server: string, now: Int64)
    requires !u.service && w.FindByNick(u.nick).None?
    ensures Handle(w, local, peer, UserLine(u, server), now) == Quietly(w.AddUser(RemoteCopy(u, server, now)))
  {
    VerbsOf();
    ParseFormat(u.ts);
    var msg := UserLine(u, server);
    assert TrimPlus("+" + u.modes) == u.modes;
    assert AnnouncedUser(msg.params) == RemoteCopy(u, server, now);
    assert Handle(w, local, peer, msg, now) == RemoteNick(w, local, msg);
  }

  lemma ServiceLineEffect(w: WorldState, local: string, peer: string, u: UserState, server: string, now: Int64)
    requires u.service && ServerName(server) && w.FindByNick(u.nick).None?
    ensures Handle(w, local, peer, UserLine(u, server), now) == Quietly(w.AddUser(RemoteCopy(u, server, now)))
  {
    VerbsOf();
    SenderOfServer(server);
    var msg := UserLine(u, server);
    assert Handle(w, local, peer, msg, now).w == RemoteService(w, peer, msg, now);
  }

  /** The line of a user whose nick is free files a copy of the user, and nothing is sent back. */
  lemma UserLineEffect(w: WorldState, local: string, peer: string, u: UserState, server: string, now: Int64)
    requires ServerName(server) && w.FindByNick(u.nick).None?
    ensures Handle(w, local, peer, UserLine(u, server), now) == Quietly(w.AddUser(RemoteCopy(u, server, now)))
  {
    if u.service {
      ServiceLineEffect(w, local, peer, u, server, now);
    } else {
      NickLineEffect(w, local, peer, u, server, now);
    }
  }

  // ----- the users of a burst -----

  /** What a node may send in a burst: nicks without '!', named channels with a positive timestamp, and
      no empty ban mask. SendableRuns shows that client commands build no other state. */
  ghost predicate Sendable(a: WorldState) {
    && a.Valid()
    && (forall id :: IsLocal(a, id) ==> '!' !in a.users[id].nick)
    && (forall c :: c in a.chans ==> a.chans[c].name != "" && a.chans[c].createdAt > 0 && "" !in a.chans[c].lists.bans)
  }

  /** Who holds nick `n` after the users `ids` arrived: whoever held it before, or else a copy of its
      holder among the sender's arrived local users. */
  ghost predicate GainedAt(a: WorldState, server: string, ids: seq<UserID>, w: WorldState, after: WorldState, n: string)
  {
    var before, now, there := w.FindByNick(n), after.FindByNick(n), a.FindByNick(n);
    if before.Some? then now == before
    else if there.Some? && !there.value.IsRemote() && there.value.id in ids then
      now.Some? && IsCopy(now.value, there.value, server)
    else now.None?
  }

  /** `after` is `w` with the local users of `a` among `ids`, and nothing else changed. */
  ghost predicate GainedUsers(a: WorldState, server: string, ids: seq<UserID>, w: WorldState, after: WorldState) {
    && after.Valid() && after.mapping == w.mapping && after.chans == w.chans
    && (forall id :: id in w.users ==> id in after.users && after.users[id] == w.users[id])
    && (forall n: string :: GainedAt(a, server, ids, w, after, n))
  }

  lemma FindAfterAdd(w: WorldState, u: UserState, n: string)
    requires w.Valid() && w.CanAdd(u)
    ensures w.AddUser(u).FindByNick(n) ==
      if n != "" && w.Key(n) == w.Key(u.nick) then Some(u.(id := w.lastId + 1)) else w.FindByNick(n)
  {
  }

  lemma FoundHasKey(w: WorldState, n: string)
    requires w.Valid() && w.FindByNick(n).Some?
    ensures n != "" && w.Key(w.FindByNick(n).value.nick) == w.Key(n)
    ensures w.FindByNick(n).value.id in w.users && w.users[w.FindByNick(n).value.id] == w.FindByNick(n).value
  {
    assert w.nicks[w.Key(n)] in w.users;
  }

  lemma HolderFound(w: WorldState, id: UserID, n: string)
    requires w.Valid() && id in w.users && n != "" && w.Key(n) == w.Key(w.users[id].nick)
    ensures w.FindByNick(n) == Some(w.users[id])
  {
  }

  lemma GainOne(a: WorldState, server: string, id: UserID, w: WorldState, at: Int64)
    requires a.Valid() && w.Valid() && a.mapping == w.mapping && IsLocal(a, id)
    requires w.FindByNick(a.users[id].nick).None?
    ensures GainedUsers(a, server, [id], w, w.AddUser(RemoteCopy(a.users[id], server, at)))
  {
    var u := RemoteCopy(a.users[id], server, at);
    AddUserKeeps(w, u);
    var after := w.AddUser(u);
    forall n: string ensures GainedAt(a, server, [id], w, after, n)
    {
      FindAfterAdd(w, u, n);
      if n != "" && a.Key(n) == a.Key(a.users[id].nick) {
        HolderFound(a, id, n);
      } else if a.FindByNick(n).Some? {
        FoundHasKey(a, n);
      }
    }
  }

  lemma GainNone(a: WorldState, server: string, w: WorldState)
    requires w.Valid()
    ensures GainedUsers(a, server, [], w, w)
  {
  }

  lemma GainCompose(a: WorldState, server: string, id: UserID, rest: seq<UserID>, w: WorldState, mid: WorldState,
                    after: WorldState)
    requires a.Valid() && w.Valid() && a.mapping == w.mapping
    requires GainedUsers(a, server, [id], w, mid) && GainedUsers(a, server, rest, mid, after)
    ensures GainedUsers(a, server, [id] + rest, w, after)
  {
    forall n: string ensures GainedAt(a, server, [id] + rest, w, after, n) {
      assert GainedAt(a, server, [id], w, mid, n) && GainedAt(a, server, rest, mid, after, n);
    }
  }

  /** A step function that files the user behind a user line. The runs below use nothing else about
      how messages are handled. */
  ghost predicate FilesUsers(step: (WorldState, Message, nat) -> WorldState, server: string, clock: nat -> Int64) {
    forall w: WorldState, u: UserState, k: nat :: w.FindByNick(u.nick).None? ==>
      step(w, UserLine(u, server), k) == w.AddUser(RemoteCopy(u, server, clock(k)))
  }

  lemma StepFilesUsers(local: string, peer: string, server: string, clock: nat -> Int64)
    requires ServerName(server)
    ensures FilesUsers(Step(local, peer, clock), server, clock)
  {
    forall w: WorldState, u: UserState, k: nat | w.FindByNick(u.nick).None?
      ensures Step(local, peer, clock)(w, UserLine(u, server), k) == w.AddUser(RemoteCopy(u, server, clock(k)))
    {
      UserLineEffect(w, local, peer, u, server, clock(k));
    }
  }

  /** None of these users' nicks is taken on the receiving node. */
  ghost predicate FreeFor(a: WorldState, w: WorldState, ids: seq<UserID>) {
    forall id :: id in ids ==> id in a.users && w.FindByNick(a.users[id].nick).None?
  }

  lemma StillFree(a: WorldState, id: UserID, rest: seq<UserID>, w: WorldState, u: UserState)
    requires a.Valid() && w.Valid() && a.mapping == w.mapping && id in a.users && id !in rest
    requires u.nick == a.users[id].nick && w.FindByNick(u.nick).None? && FreeFor(a, w, rest)
    ensures FreeFor(a, w.AddUser(u), rest)
  {
    forall id' | id' in rest ensures w.AddUser(u).FindByNick(a.users[id'].nick).None? {
      FindAfterAdd(w, u, a.users[id'].nick);
    }
  }

  lemma OneUserArrives(a: WorldState, server: string, id: UserID, rest: seq<UserID>, w: WorldState,
                       step: (WorldState, Message, nat) -> WorldState, clock: nat -> Int64,
                       k: nat) returns (mid: WorldState)
    requires a.Valid() && w.Valid() && a.mapping == w.mapping && FilesUsers(step, server, clock)
    requires id !in rest && FreeFor(a, w, [id] + rest)
    ensures RunAll(step, w, UserLinesOf(a, server, id), k) == mid
    ensures GainedUsers(a, server, [id], w, mid) && FreeFor(a, mid, rest)
    ensures mid.Valid() && mid.mapping == w.mapping
  {
    assert id in [id] + rest && forall x :: x in rest ==> x in [id] + rest;
    if IsLocal(a, id) {
      var u := RemoteCopy(a.users[id], server, clock(k));
      mid := w.AddUser(u);
      assert step(w, UserLine(a.users[id], server), k) == mid;
      RunOne(step, w, UserLine(a.users[id], server), k);
      GainOne(a, server, id, w, clock(k));
      StillFree(a, id, rest, w, u);
    } else {
      mid := w;
      SkipRemote(a, server, id, w);
    }
  }

  /** The user lines of a burst, to a peer that shares no nick with the sender. */
  lemma {:induction false} UsersArrive(a: WorldState, server: string, ids: seq<UserID>, w: WorldState,
                                       step: (WorldState, Message, nat) -> WorldState, clock: nat -> Int64, k: nat)
    returns (after: WorldState)
    requires a.Valid() && w.Valid() && a.mapping == w.mapping && FilesUsers(step, server, clock)
    requires NoDups(ids) && FreeFor(a, w, ids)
    ensures RunAll(step, w, UserLines(a, server, ids), k) == after
    ensures GainedUsers(a, server, ids, w, after)
    decreases |ids|
  {
    hide GainedUsers, FreeFor, FilesUsers, WorldState.Valid;
    after := w;
    GainNone(a, server, w);
    if ids != [] {
      var id, rest := ids[0], ids[1..];
      var first, more := UserLinesOf(a, server, id), UserLines(a, server, rest);
      assert ids == [id] + rest;
      var mid := OneUserArrives(a, server, id, rest, w, step, clock, k);
      after := UsersArrive(a, server, rest, mid, step, clock, k + |first|);
      RunThen(step, w, mid, after, first, more, k);
      GainCompose(a, server, id, rest, w, mid, after);
    }
  }

  lemma SkipRemote(a: WorldState, server: string, id: UserID, w: WorldState)
    requires a.Valid() && w.Valid() && id in a.users && a.users[id].IsRemote()
    ensures GainedUsers(a, server, [id], w, w)
  {
    forall n: string ensures GainedAt(a, server, [id], w, w, n) {
      if a.FindByNick(n).Some? {
        FoundHasKey(a, n);
      }
    }
  }

  // ----- lines that a burst does not have -----

  /** A SERVICE line without a sender makes a service of the peer whose link it came over. */
  lemma BareServiceIsThePeers(w: WorldState, local: string, peer: string, params: seq<string>, now: Int64)
    requires |params| >= 6 && params[0] != "" && w.UsersValid() && w.FindByNick(params[0]).None?
    ensures var found := Handle(w, local, peer, Plain("", "SERVICE", params), now).w.FindByNick(params[0]);
            && found.Some? && found.value.homeServer == peer && found.value.nick == params[0] && found.value.service
            && found.value.serviceType == params[3] && found.value.realname == params[5]
  {
    VerbsOf();
    assert SenderOf("") == "";
  }

  /** An announcement in the older form, with seven parameters or without a number for the seventh, files the user
      with the seventh for a real name and without a timestamp. A plus in front of the modes is not part of them. */
  lemma OlderAnnouncement(w: WorldState, local: string, peer: string, sender: string, params: seq<string>, now: Int64)
    requires |params| == 7 || (|params| >= 8 && ParseInt(params[6]).None?)
    requires params[0] != "" && w.UsersValid() && w.FindByNick(params[0]).None?
    ensures var found := Handle(w, local, peer, Plain(sender, "NICK", params), now).w.FindByNick(params[0]);
            && found.Some? && found.value.ts == 0 && found.value.realname == params[6]
            && found.value.nick == params[0] && found.value.user == params[2] && found.value.host == params[3]
            && found.value.homeServer == params[4] && !found.value.service
            && (params[5] == found.value.modes || params[5] == "+" + found.value.modes)
            && (found.value.modes != "" && found.value.modes[0] == '+' ==> params[5] != found.value.modes)
  {
    VerbsOf();
    if params[5] != "" && params[5][0] == '+' {
      assert params[5] == "+" + params[5][1..];
    }
  }
}
