/** A nick collision with equal timestamps: whatever the order of events, both users lose. */
module CollisionTie {
  import opened Prelude
  import opened Numbers
  import opened CaseMap
  import opened Message
  import opened State
  import opened FedSpec
  import opened BurstUsers
  import opened Collision
  import opened CollisionTheorem

  /** Two local users on different nodes under nicks that fold alike, registered at the same time. */
  ghost predicate IsTie(c: Clash) {
    && Fold(c.mapping, c.low.nick) == c.key && Fold(c.mapping, c.high.nick) == c.key
    && !c.low.IsRemote() && !c.high.IsRemote() && c.low.ts == c.high.ts != 0
  }

  /** One of the two users of the clash. */
  ghost predicate OneOf(c: Clash, u: UserState) {
    u == c.low || u == c.high
  }

  /** A message of the exchange: under the nick only the other user is announced. */
  ghost predicate Fair(c: Clash, m: Message) {
    && (Announces(c.mapping, m, c.key) ==> AnnouncedTS(m.params) == c.low.ts && m.params[4] != "")
    && (Renames(m) ==> Fold(c.mapping, m.params[0]) != c.key && Fold(c.mapping, SenderOf(m.prefix)) != c.key)
    && (VerbOf(m.command) == ServiceVerb && |m.params| >= 6 ==> Fold(c.mapping, m.params[0]) != c.key)
  }

  /** The home node of `u` has it until the other user's announcement has come, and has nobody under the nick
      from then on. */
  ghost predicate Waits(c: Clash, u: UserState, w: WorldState, pending: nat) {
    && w.UsersValid() && w.mapping == c.mapping && u.id <= w.lastId && pending <= 1
    && if pending == 1 then Holder(w, c.key) == Some(u) else Holder(w, c.key).None? && u.id !in w.users
  }

  function Count(c: Clash, m: Message): nat {
    if Announces(c.mapping, m, c.key) then 1 else 0
  }

  /** Handling one message, with `rest` announcements of the nick behind it. */
  ghost predicate Reacts(c: Clash, u: UserState, r: Reaction, m: Message, rest: nat) {
    && Waits(c, u, r.w, rest)
    && (Count(c, m) == 1 ==> u.nick in r.drops)
    && (Count(c, m) == 0 ==> forall n :: n in r.drops ==> Fold(c.mapping, n) != c.key)
    && forall s :: s in r.sent ==> Fair(c, s) && !Announces(c.mapping, s, c.key)
  }

  lemma WaitsElsewhere(c: Clash, u: UserState, w: WorldState, w': WorldState, pending: nat)
    requires Waits(c, u, w, pending) && Elsewhere(w, w', c.key)
    ensures Waits(c, u, w', pending)
  {
  }

  lemma TieAnnounced(c: Clash, u: UserState, w: WorldState, local: string, v: UserState)
    requires IsTie(c) && OneOf(c, u) && Waits(c, u, w, 1) && w.Key(v.nick) == c.key && v.ts == c.low.ts
    ensures var r := Announce(w, local, v);
            Waits(c, u, r.w, 0) && u.nick in r.drops
            && forall s :: s in r.sent ==> Fair(c, s) && !Announces(c.mapping, s, c.key)
  {
    FindIsHolder(w, v.nick);
    HolderAfterRemove(w, u.id, c.key);
    KillIsSafe(c, local, v.nick, "Nick collision (equal TS, both lose)");
  }

  lemma OtherAnnounced(c: Clash, u: UserState, w: WorldState, local: string, v: UserState, pending: nat)
    requires Waits(c, u, w, pending) && w.Key(v.nick) != c.key
    ensures var r := Announce(w, local, v);
            && Waits(c, u, r.w, pending) && (forall n :: n in r.drops ==> Fold(c.mapping, n) != c.key)
            && forall s :: s in r.sent ==> Fair(c, s) && !Announces(c.mapping, s, c.key)
  {
    AnnounceElsewhere(w, local, v, c.key);
    WaitsElsewhere(c, u, w, Announce(w, local, v).w, pending);
    AnnounceKillsOnlyItself(c, w, local, v);
  }

  lemma TieRename(c: Clash, u: UserState, w: WorldState, local: string, m: Message, pending: nat)
    requires Waits(c, u, w, pending) && |m.params| == 1 && m.prefix != ""
    requires Fold(c.mapping, m.params[0]) != c.key && Fold(c.mapping, SenderOf(m.prefix)) != c.key
    ensures var r := RemoteNick(w, local, m); Waits(c, u, r.w, pending) && r.sent == [] && r.drops == []
  {
    var found := w.FindByNick(SenderOf(m.prefix));
    FindIsHolder(w, SenderOf(m.prefix));
    if found.Some? && found.value.IsRemote() {
      HolderAfterRename(w, found.value.id, m.params[0], c.key);
      WaitsElsewhere(c, u, w, w.RenameUser(found.value.id, m.params[0]), pending);
    }
  }

  lemma TieService(c: Clash, u: UserState, w: WorldState, peer: string, m: Message, now: Int64, pending: nat)
    requires Waits(c, u, w, pending) && (|m.params| >= 6 ==> Fold(c.mapping, m.params[0]) != c.key)
    ensures Waits(c, u, RemoteService(w, peer, m, now), pending)
  {
    if |m.params| >= 6 {
      AddElsewhere(w, ServiceUser(peer, m, now), c.key);
      WaitsElsewhere(c, u, w, w.AddUser(ServiceUser(peer, m, now)), pending);
    }
  }

  lemma TieRemoves(c: Clash, u: UserState, w: WorldState, id: UserID, pending: nat)
    requires IsTie(c) && OneOf(c, u) && Waits(c, u, w, pending) && (id in w.users ==> w.users[id].IsRemote())
    ensures Waits(c, u, w.RemoveUser(id), pending)
  {
    HolderAfterRemove(w, id, c.key);
  }

  lemma TieQuit(c: Clash, u: UserState, w: WorldState, m: Message, pending: nat)
    requires IsTie(c) && OneOf(c, u) && Waits(c, u, w, pending)
    ensures Waits(c, u, RemoteQuit(w, m), pending)
  {
    var found := w.FindByNick(SenderOf(m.prefix));
    FindIsHolder(w, SenderOf(m.prefix));
    if found.Some? && found.value.IsRemote() {
      TieRemoves(c, u, w, found.value.id, pending);
    }
  }

  /** By the time a KILL of the nick comes, nobody has it. */
  lemma TieKill(c: Clash, u: UserState, w: WorldState, m: Message, pending: nat)
    requires IsTie(c) && OneOf(c, u) && Waits(c, u, w, pending) && (Kills(c.mapping, m, c.key) ==> pending == 0)
    requires VerbOf(m.command) == KillVerb
    ensures var r := RemoteKill(w, m);
            Waits(c, u, r.w, pending) && r.sent == [] && forall n :: n in r.drops ==> Fold(c.mapping, n) != c.key
  {
    if |m.params| >= 2 {
      var target := w.FindByNick(m.params[0]);
      FindIsHolder(w, m.params[0]);
      if target.Some? && target.value.IsRemote() {
        TieRemoves(c, u, w, target.value.id, pending);
      }
    }
  }

  lemma TieReacts(c: Clash, u: UserState, w: WorldState, local: string, peer: string, m: Message, now: Int64, rest: nat)
    requires IsTie(c) && OneOf(c, u) && Waits(c, u, w, Count(c, m) + rest) && Fair(c, m)
    requires Kills(c.mapping, m, c.key) ==> rest == 0
    ensures Reacts(c, u, Handle(w, local, peer, m, now), m, rest)
  {
    hide Waits, IsTie, OneOf, AnnouncedTS;
    match VerbOf(m.command)
    case NickVerb =>
      if |m.params| == 1 && m.prefix != "" {
        TieRename(c, u, w, local, m, rest);
      } else if |m.params| >= 7 {
        WaitsMapping(c, u, w, Count(c, m) + rest);
        AnnouncedFields(m.params);
        if Announces(c.mapping, m, c.key) {
          TieAnnounced(c, u, w, local, AnnouncedUser(m.params));
        } else {
          OtherAnnounced(c, u, w, local, AnnouncedUser(m.params), rest);
        }
      }
    case ServiceVerb => TieService(c, u, w, peer, m, now, rest);
    case QuitVerb => TieQuit(c, u, w, m, rest);
    case KillVerb => TieKill(c, u, w, m, rest);
    case _ =>
      ChannelVerbsKeepUsers(w, local, peer, m, now);
      WaitsSameUsers(c, u, w, Handle(w, local, peer, m, now).w, rest);
  }

  lemma WaitsMapping(c: Clash, u: UserState, w: WorldState, pending: nat)
    requires Waits(c, u, w, pending)
    ensures w.mapping == c.mapping && pending <= 1
  {
  }

  lemma AnnouncedFields(params: seq<string>)
    requires |params| >= 7
    ensures AnnouncedUser(params).nick == params[0] && AnnouncedUser(params).ts == AnnouncedTS(params)
  {
  }

  lemma WaitsSameUsers(c: Clash, u: UserState, w: WorldState, w': WorldState, pending: nat)
    requires Waits(c, u, w, pending) && SameUsers(w, w')
    ensures Waits(c, u, w', pending)
  {
    SameUsersSameHolder(w, w', c.key);
  }

  // ----- one node of the net -----

  /** KILLs of the nick come behind its announcement. */
  ghost predicate KillsBehind(c: Clash, msgs: seq<Message>) {
    forall i :: 0 <= i < |msgs| && Kills(c.mapping, msgs[i], c.key) ==> Pending(c, msgs[i..]) == 0
  }

  /** The connection of `u` lasts until the other user is announced, and is closing from then on. */
  ghost predicate Connected(u: UserState, n: Node, pending: nat) {
    && (u.id in n.conns ==> n.conns[u.id] == u && (pending == 1 || u.id in n.closing))
    && (pending == 1 ==> u.id !in n.closing)
  }

  ghost predicate NodeOk(c: Clash, u: UserState, n: Node, inbox: seq<Message>) {
    && Waits(c, u, n.w, Pending(c, inbox)) && Connected(u, n, Pending(c, inbox)) && KillsBehind(c, inbox)
    && forall m :: m in inbox ==> Fair(c, m)
  }

  lemma {:induction false} RestBehind(c: Clash, msgs: seq<Message>)
    requires msgs != [] && KillsBehind(c, msgs)
    ensures KillsBehind(c, msgs[1..]) && (Kills(c.mapping, msgs[0], c.key) ==> Pending(c, msgs) == 0)
  {
    assert msgs[0..] == msgs;
    forall i | 0 <= i < |msgs[1..]| && Kills(c.mapping, msgs[1..][i], c.key) ensures Pending(c, msgs[1..][i..]) == 0 {
      assert msgs[1..][i] == msgs[i + 1] && msgs[1..][i..] == msgs[i + 1..];
    }
  }

  lemma {:induction false} GrownBehind(c: Clash, inbox: seq<Message>, more: seq<Message>)
    requires KillsBehind(c, inbox) && forall m :: m in more ==> !Announces(c.mapping, m, c.key)
    ensures KillsBehind(c, inbox + more) && Pending(c, inbox + more) == Pending(c, inbox)
  {
    hide Announces, Kills;
    var all := inbox + more;
    PendingConcat(c, inbox, more);
    NonePending(c, more);
    forall i | 0 <= i < |all| && Kills(c.mapping, all[i], c.key) ensures Pending(c, all[i..]) == 0 {
      PendingOfTail(c, inbox, more, i);
      if i < |inbox| {
        assert Kills(c.mapping, inbox[i], c.key);
      }
    }
  }

  lemma PendingOfTail(c: Clash, inbox: seq<Message>, more: seq<Message>, i: nat)
    requires i <= |inbox + more| && forall m :: m in more ==> !Announces(c.mapping, m, c.key)
    ensures Pending(c, (inbox + more)[i..]) == if i < |inbox| then Pending(c, inbox[i..]) else 0
  {
    hide Announces;
    if i < |inbox| {
      assert (inbox + more)[i..] == inbox[i..] + more;
      PendingConcat(c, inbox[i..], more);
      NonePending(c, more);
    } else {
      assert (inbox + more)[i..] == more[i - |inbox|..];
      NonePending(c, (inbox + more)[i..]);
    }
  }

  /** More messages arrive, none of which announces the nick. */
  lemma InboxGrows(c: Clash, u: UserState, n: Node, inbox: seq<Message>, more: seq<Message>)
    requires NodeOk(c, u, n, inbox) && forall m :: m in more ==> Fair(c, m) && !Announces(c.mapping, m, c.key)
    ensures NodeOk(c, u, n, inbox + more)
  {
    hide Waits, Connected, Fair, Announces, KillsBehind, Pending;
    GrownBehind(c, inbox, more);
    assert forall m :: m in inbox + more ==> m in inbox || m in more;
  }

  /** A node handles its first message. */
  lemma NodeReceives(c: Clash, u: UserState, n: Node, peer: string, inbox: seq<Message>, now: Int64)
    requires IsTie(c) && OneOf(c, u) && NodeOk(c, u, n, inbox) && inbox != []
    ensures var r := Handle(n.w, n.name, peer, inbox[0], now);
            && NodeOk(c, u, After(n, r), inbox[1..])
            && forall s :: s in r.sent ==> Fair(c, s) && !Announces(c.mapping, s, c.key)
  {
    hide Waits, Handle, Fair, KillsBehind, Pending, Announces, Kills;
    var m, rest := inbox[0], Pending(c, inbox[1..]);
    assert m in inbox && forall x :: x in inbox[1..] ==> x in inbox;
    PendingRest(c, inbox);
    RestBehind(c, inbox);
    WaitsMapping(c, u, n.w, Pending(c, inbox));
    TieReacts(c, u, n.w, n.name, peer, m, now, rest);
    NickOfKey(c, u);
  }

  lemma NickOfKey(c: Clash, u: UserState)
    requires IsTie(c) && OneOf(c, u)
    ensures Fold(c.mapping, u.nick) == c.key
  {
  }

  lemma NodeCloses(c: Clash, u: UserState, n: Node, inbox: seq<Message>, id: UserID)
    requires NodeOk(c, u, n, inbox) && id in n.closing
    ensures NodeOk(c, u, Closed(n, id), inbox)
  {
    hide KillsBehind, Fair;
    QuitHolder(n.w, id, c.key);
  }

  lemma QuitIsFair(c: Clash, u: UserState)
    ensures Fair(c, QuitLine(u)) && !Announces(c.mapping, QuitLine(u), c.key)
  {
    QuitLineIsSafe(c, u);
  }

  // ----- the net -----

  ghost predicate TieInv(c: Clash, net: Net) {
    NodeOk(c, c.low, net.low, net.toLow) && NodeOk(c, c.high, net.high, net.toHigh)
  }

  lemma NextKeepsTie(c: Clash, net: Net, e: Event)
    requires IsTie(c) && TieInv(c, net)
    ensures TieInv(c, Next(net, e))
  {
    hide NodeOk, IsTie, Handle, Fair, Announces, QuitLine, After, Closed;
    match e
    case HighReceives(now) =>
      if net.toHigh != [] {
        NodeReceives(c, c.high, net.high, net.low.name, net.toHigh, now);
        InboxGrows(c, c.low, net.low, net.toLow,
                   Handle(net.high.w, net.high.name, net.low.name, net.toHigh[0], now).sent);
      }
    case LowReceives(now) =>
      if net.toLow != [] {
        NodeReceives(c, c.low, net.low, net.high.name, net.toLow, now);
        InboxGrows(c, c.high, net.high, net.toHigh,
                   Handle(net.low.w, net.low.name, net.high.name, net.toLow[0], now).sent);
      }
    case HighCloses(id) =>
      if id in net.high.closing && id in net.high.conns {
        NodeCloses(c, c.high, net.high, net.toHigh, id);
        QuitIsFair(c, net.high.conns[id]);
        InboxGrows(c, c.low, net.low, net.toLow, [QuitLine(net.high.conns[id])]);
      }
    case LowCloses(id) =>
      if id in net.low.closing && id in net.low.conns {
        NodeCloses(c, c.low, net.low, net.toLow, id);
        QuitIsFair(c, net.low.conns[id]);
        InboxGrows(c, c.high, net.high, net.toHigh, [QuitLine(net.low.conns[id])]);
      }
  }

  lemma {:induction false} RunKeepsTie(c: Clash, net: Net, events: seq<Event>)
    requires IsTie(c) && TieInv(c, net)
    ensures TieInv(c, Run(net, events))
    decreases |events|
  {
    hide TieInv, IsTie, Next;
    if events != [] {
      NextKeepsTie(c, net, events[0]);
      RunKeepsTie(c, Next(net, events[0]), events[1..]);
    }
  }

  /** Two nodes that have just sent each other their bursts, with a tie between two of their users. */
  ghost predicate StartsTied(c: Clash, net: Net, oLow: Order, oHigh: Order) {
    && IsTie(c) && IsHome(c, c.low, net.low.w) && IsHome(c, c.high, net.high.w)
    && ServerName(net.low.name) && ServerName(net.high.name)
    && net.low.closing == {} && net.high.closing == {} && DistinctNicks(net.low) && DistinctNicks(net.high)
    && (c.low.id in net.low.conns ==> net.low.conns[c.low.id] == c.low)
    && (c.high.id in net.high.conns ==> net.high.conns[c.high.id] == c.high)
    && Orders(oLow, net.low.w) && Orders(oHigh, net.high.w)
    && net.toHigh == BurstLines(net.low.w, net.low.name, oLow)
    && net.toLow == BurstLines(net.high.w, net.high.name, oHigh)
  }

  lemma HomeHolds(c: Clash, u: UserState, w: WorldState)
    requires IsHome(c, u, w)
    ensures Waits(c, u, w, 1)
  {
  }

  lemma BurstIsFair(c: Clash, u: UserState, v: UserState, n: Node, inbox: seq<Message>)
    requires IsTie(c) && OneOf(c, u) && OneOf(c, v) && IsHome(c, u, n.w) && AnnouncesOnce(c, v, inbox, 1)
    requires n.closing == {} && (u.id in n.conns ==> n.conns[u.id] == u)
    ensures NodeOk(c, u, n, inbox)
  {
    HomeHolds(c, u, n.w);
    hide Waits, IsHome;
  }

  /** Nobody has the nick on the node, and its user is gone with its connection. */
  ghost predicate HasLost(u: UserState, n: Node) {
    n.w.FindByNick(u.nick) == None && u.id !in n.w.users && u.id !in n.conns
  }

  /** Two users of different nodes hold nicks that fold alike, with equal timestamps. Both nodes have sent their
      bursts. In whatever order the bursts, the KILLs and QUITs they cause and the teardown of dropped connections
      are handled, once nothing is in flight or closing both users and both connections are gone, and the nick is
      free on both nodes. */
  lemma BothLose(c: Clash, net: Net, oLow: Order, oHigh: Order, events: seq<Event>)
    requires StartsTied(c, net, oLow, oHigh)
    ensures var end := Run(net, events);
            Settled(end) ==> HasLost(c.low, end.low) && HasLost(c.high, end.high)
  {
    BurstOnce(c, c.low, net.low.w, net.low.name, oLow);
    BurstOnce(c, c.high, net.high.w, net.high.name, oHigh);
    BurstIsFair(c, c.low, c.high, net.low, net.toLow);
    BurstIsFair(c, c.high, c.low, net.high, net.toHigh);
    RunKeepsTie(c, net, events);
    var end := Run(net, events);
    if Settled(end) {
      FindIsHolder(end.low.w, c.low.nick);
      FindIsHolder(end.high.w, c.high.nick);
    }
  }
}
