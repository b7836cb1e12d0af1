/** The nick-collision theorem over every interleaving of two bursts and what they trigger. */
module CollisionTheorem {
  import opened Prelude
  import opened Numbers
  import opened CaseMap
  import opened Message
  import opened State
  import opened FedSpec
  import opened BurstShape
  import opened BurstUsers
  import opened Collision

  /** The number of announcements of the nick among messages in flight. */
  function Pending(c: Clash, msgs: seq<Message>): nat {
    if msgs == [] then 0 else (if Announces(c.mapping, msgs[0], c.key) then 1 else 0) + Pending(c, msgs[1..])
  }

  lemma {:induction false} PendingConcat(c: Clash, a: seq<Message>, b: seq<Message>)
    ensures Pending(c, a + b) == Pending(c, a) + Pending(c, b)
  {
    if a == [] {
      assert a + b == b;
    } else {
      assert (a + b)[1..] == a[1..] + b;
      PendingConcat(c, a[1..], b);
    }
  }

  lemma {:induction false} NonePending(c: Clash, msgs: seq<Message>)
    requires forall m :: m in msgs ==> !Announces(c.mapping, m, c.key)
    ensures Pending(c, msgs) == 0
  {
    if msgs != [] {
      NonePending(c, msgs[1..]);
    }
  }

  ghost predicate LowNodeOk(c: Clash, n: Node) {
    && LowOk(c, n.w) && c.low.id !in n.closing
    && (c.low.id in n.conns ==> Fold(c.mapping, n.conns[c.low.id].nick) == c.key)
  }

  ghost predicate FlightOk(c: Clash, net: Net) {
    && (forall m :: m in net.toLow ==> SafeForLow(c, m))
    && (forall m :: m in net.toHigh ==> SafeForHigh(c, m))
  }

  /** The younger user goes with the one announcement that is still to arrive, or with its connection. */
  ghost predicate Bound(c: Clash, high: Node, pending: nat) {
    && pending <= 1
    && (HasHigh(c, high.w) ==> pending == 1 || c.high.id in high.closing)
    && (HasCopy(c, high.w) ==> pending == 0)
  }

  /** A KILL of the nick is on its way, with no announcement of the nick behind it. */
  ghost predicate KillQueued(c: Clash, msgs: seq<Message>) {
    exists i :: 0 <= i < |msgs| && KillsLast(c, msgs, i)
  }

  ghost predicate KillsLast(c: Clash, msgs: seq<Message>, i: nat)
    requires i < |msgs|
  {
    Kills(c.mapping, msgs[i], c.key) && Pending(c, msgs[i..]) == 0
  }

  /** As long as a copy of the older user is, or is about to be, on the younger user's node, a KILL of the
      nick is queued behind it or will be: the younger user's announcement has yet to be answered. */
  ghost predicate KillComing(c: Clash, high: WorldState, toHigh: seq<Message>, toLow: seq<Message>) {
    HasCopy(c, high) || Pending(c, toHigh) > 0 ==> Pending(c, toLow) > 0 || KillQueued(c, toHigh)
  }

  /** The younger user's connection lasts no longer than its record, but for the time it takes to close. */
  ghost predicate ConnOk(c: Clash, high: Node) {
    c.high.id in high.conns ==> high.conns[c.high.id] == c.high && (HasHigh(c, high.w) || c.high.id in high.closing)
  }

  ghost predicate Inv(c: Clash, net: Net) {
    && LowNodeOk(c, net.low) && HighOk(c, net.high.w) && FlightOk(c, net)
    && Bound(c, net.high, Pending(c, net.toHigh))
    && KillComing(c, net.high.w, net.toHigh, net.toLow) && ConnOk(c, net.high)
  }

  lemma {:induction false} PendingRest(c: Clash, msgs: seq<Message>)
    requires msgs != []
    ensures Pending(c, msgs) == Pending(c, [msgs[0]]) + Pending(c, msgs[1..])
    ensures Pending(c, [msgs[0]]) == if Announces(c.mapping, msgs[0], c.key) then 1 else 0
  {
    assert [msgs[0]] + msgs[1..] == msgs && [msgs[0]][1..] == [];
    PendingConcat(c, [msgs[0]], msgs[1..]);
  }

  /** Messages that do not announce the nick may be added behind the KILL. */
  lemma {:induction false} KillStaysQueued(c: Clash, msgs: seq<Message>, more: seq<Message>)
    requires KillQueued(c, msgs) && forall m :: m in more ==> !Announces(c.mapping, m, c.key)
    ensures KillQueued(c, msgs + more)
  {
    var i :| 0 <= i < |msgs| && KillsLast(c, msgs, i);
    assert (msgs + more)[i..] == msgs[i..] + more;
    PendingConcat(c, msgs[i..], more);
    NonePending(c, more);
    assert KillsLast(c, msgs + more, i);
  }

  lemma {:induction false} KillJoinsQueue(c: Clash, msgs: seq<Message>, kill: Message)
    requires Kills(c.mapping, kill, c.key)
    ensures KillQueued(c, msgs + [kill])
  {
    var all := msgs + [kill];
    assert all[|msgs|..] == [kill];
    PendingRest(c, [kill]);
    assert KillsLast(c, all, |msgs|);
  }

  /** Unless the first message is the KILL itself, taking it off leaves the KILL queued; an announcement
      in front of it was not behind it. */
  lemma {:induction false} KillMovesUp(c: Clash, msgs: seq<Message>)
    requires msgs != [] && KillQueued(c, msgs)
    ensures KillQueued(c, msgs[1..]) || (Kills(c.mapping, msgs[0], c.key) && Pending(c, msgs) == 0)
  {
    var i :| 0 <= i < |msgs| && KillsLast(c, msgs, i);
    if i == 0 {
      assert msgs[0..] == msgs;
    } else {
      assert msgs[1..][i - 1..] == msgs[i..];
      assert KillsLast(c, msgs[1..], i - 1);
    }
  }

  lemma {:induction false} HighReceivesKillComing(c: Clash, w: WorldState, r: Reaction, toHigh: seq<Message>,
                                                  toLow: seq<Message>)
    requires toHigh != [] && KillComing(c, w, toHigh, toLow)
    requires HighMoves(c, w, r, Announces(c.mapping, toHigh[0], c.key))
    requires Kills(c.mapping, toHigh[0], c.key) ==> !HasCopy(c, r.w)
    ensures KillComing(c, r.w, toHigh[1..], toLow + r.sent)
  {
    PendingRest(c, toHigh);
    PendingConcat(c, toLow, r.sent);
    if Pending(c, toLow) == 0 && (HasCopy(c, w) || Pending(c, toHigh) > 0) {
      KillMovesUp(c, toHigh);
    }
  }

  lemma {:induction false} LowReceivesKillComing(c: Clash, high: WorldState, r: Reaction, toHigh: seq<Message>,
                                                 toLow: seq<Message>)
    requires toLow != [] && KillComing(c, high, toHigh, toLow)
    requires Announces(c.mapping, toLow[0], c.key) ==> AnswersWithKill(c, r)
    requires forall m :: m in r.sent ==> !Announces(c.mapping, m, c.key)
    ensures KillComing(c, high, toHigh + r.sent, toLow[1..])
  {
    PendingRest(c, toLow);
    PendingConcat(c, toHigh, r.sent);
    NonePending(c, r.sent);
    if Announces(c.mapping, toLow[0], c.key) {
      assert r.sent == [r.sent[0]];
      KillJoinsQueue(c, toHigh, r.sent[0]);
    } else if KillQueued(c, toHigh) {
      KillStaysQueued(c, toHigh, r.sent);
    }
  }

  /** The connection of the younger user is told to close in the step in which its record goes. */
  lemma HighReceivesConnOk(c: Clash, n: Node, r: Reaction, announced: bool)
    requires ConnOk(c, n) && HighMoves(c, n.w, r, announced)
    ensures ConnOk(c, After(n, r))
  {
  }

  lemma HighReceivesKeeps(c: Clash, net: Net, now: Int64)
    requires IsClash(c) && Inv(c, net)
    ensures Inv(c, Next(net, HighReceives(now)))
  {
    if net.toHigh != [] {
      var m := net.toHigh[0];
      assert m in net.toHigh;
      HighReacts(c, net.high.w, net.high.name, net.low.name, m, now);
      var r := Handle(net.high.w, net.high.name, net.low.name, m, now);
      assert forall x :: x in net.toLow + r.sent ==> x in net.toLow || x in r.sent;
      assert Bound(c, After(net.high, r), Pending(c, net.toHigh[1..]));
      HighReceivesKillComing(c, net.high.w, r, net.toHigh, net.toLow);
      HighReceivesConnOk(c, net.high, r, Announces(c.mapping, m, c.key));
    }
  }

  lemma LowReceivesKeeps(c: Clash, net: Net, now: Int64)
    requires IsClash(c) && Inv(c, net)
    ensures Inv(c, Next(net, LowReceives(now)))
  {
    if net.toLow != [] {
      var m := net.toLow[0];
      assert m in net.toLow;
      LowReacts(c, net.low.w, net.low.name, net.high.name, m, now);
      var r := Handle(net.low.w, net.low.name, net.high.name, m, now);
      PendingConcat(c, net.toHigh, r.sent);
      NonePending(c, r.sent);
      assert forall x :: x in net.toHigh + r.sent ==> x in net.toHigh || x in r.sent;
      assert LowNodeOk(c, After(net.low, r));
      LowReceivesKillComing(c, net.high.w, r, net.toHigh, net.toLow);
    }
  }

  lemma QuitLineIsSafe(c: Clash, u: UserState)
    ensures SafeForLow(c, QuitLine(u)) && SafeForHigh(c, QuitLine(u)) && !Announces(c.mapping, QuitLine(u), c.key)
  {
    VerbsOf();
  }

  lemma QuitHolder(w: WorldState, id: UserID, key: string)
    requires w.UsersValid()
    ensures w.Quit(id).UsersValid() && w.Quit(id).mapping == w.mapping && w.Quit(id).lastId == w.lastId
    ensures Holder(w.Quit(id), key)
         == if Holder(w, key).Some? && Holder(w, key).value.id == id then None else Holder(w, key)
    ensures w.Quit(id).users.Keys == w.users.Keys - {id}
  {
    HolderAfterRemove(w.PartAll(id), id, key);
  }

  lemma HighNodeCloses(c: Clash, n: Node, id: UserID, pending: nat)
    requires IsClash(c) && HighOk(c, n.w) && Bound(c, n, pending) && ConnOk(c, n) && id in n.closing
    ensures HighOk(c, Closed(n, id).w) && Bound(c, Closed(n, id), pending) && ConnOk(c, Closed(n, id))
    ensures HasCopy(c, Closed(n, id).w) ==> HasCopy(c, n.w)
  {
    QuitHolder(n.w, id, c.key);
  }

  lemma LowNodeCloses(c: Clash, n: Node, id: UserID)
    requires IsClash(c) && LowNodeOk(c, n) && id in n.closing
    ensures LowNodeOk(c, Closed(n, id))
  {
    QuitHolder(n.w, id, c.key);
  }

  lemma HighClosesKeeps(c: Clash, net: Net, id: UserID)
    requires IsClash(c) && Inv(c, net)
    ensures Inv(c, Next(net, HighCloses(id)))
  {
    hide LowNodeOk, KillQueued;
    if id in net.high.closing && id in net.high.conns {
      HighNodeCloses(c, net.high, id, Pending(c, net.toHigh));
      QuitLineIsSafe(c, net.high.conns[id]);
      var line := QuitLine(net.high.conns[id]);
      assert forall x :: x in net.toLow + [line] ==> x in net.toLow || x == line;
      PendingConcat(c, net.toLow, [line]);
    }
  }

  lemma LowClosesKeeps(c: Clash, net: Net, id: UserID)
    requires IsClash(c) && Inv(c, net)
    ensures Inv(c, Next(net, LowCloses(id)))
  {
    hide LowNodeOk, HighOk, Bound, ConnOk, KillQueued;
    if id in net.low.closing && id in net.low.conns {
      LowNodeCloses(c, net.low, id);
      QuitLineIsSafe(c, net.low.conns[id]);
      var line := QuitLine(net.low.conns[id]);
      PendingConcat(c, net.toHigh, [line]);
      NonePending(c, [line]);
      assert forall x :: x in net.toHigh + [line] ==> x in net.toHigh || x == line;
      if KillQueued(c, net.toHigh) {
        KillStaysQueued(c, net.toHigh, [line]);
      }
    }
  }

  lemma NextKeeps(c: Clash, net: Net, e: Event)
    requires IsClash(c) && Inv(c, net)
    ensures Inv(c, Next(net, e))
  {
    match e
    case HighReceives(now) => HighReceivesKeeps(c, net, now);
    case LowReceives(now) => LowReceivesKeeps(c, net, now);
    case HighCloses(id) => HighClosesKeeps(c, net, id);
    case LowCloses(id) => LowClosesKeeps(c, net, id);
  }

  lemma {:induction false} RunKeeps(c: Clash, net: Net, events: seq<Event>)
    requires IsClash(c) && Inv(c, net)
    ensures Inv(c, Run(net, events))
    decreases |events|
  {
    if events != [] {
      NextKeeps(c, net, events[0]);
      RunKeeps(c, Next(net, events[0]), events[1..]);
    }
  }

  // ----- the start -----

  /** The burst of a node that holds `u` under the nick announces the nick once, as `u`. */
  ghost predicate AnnouncesOnce(c: Clash, u: UserState, msgs: seq<Message>, count: nat) {
    && Pending(c, msgs) == count
    && (forall m :: m in msgs ==> !Renames(m) && VerbOf(m.command) != KillVerb)
    && (forall m :: m in msgs && Announces(c.mapping, m, c.key) ==> AnnouncedTS(m.params) == u.ts && m.params[4] != "")
    && (forall m :: m in msgs && VerbOf(m.command) == ServiceVerb && |m.params| >= 6 ==>
       Fold(c.mapping, m.params[0]) != c.key)
  }

  /** `w` is the home of local user `u`, who holds the nick. */
  ghost predicate IsHome(c: Clash, u: UserState, w: WorldState) {
    && w.Valid() && w.mapping == c.mapping && u.id in w.users && w.users[u.id] == u && !u.IsRemote() && !u.service
    && Fold(c.mapping, u.nick) == c.key
  }

  /** At home the user is the only one under the nick. */
  lemma HomeKey(c: Clash, u: UserState, w: WorldState, id: UserID)
    requires IsHome(c, u, w) && id in w.users
    ensures Fold(c.mapping, w.users[id].nick) == c.key <==> id == u.id
    ensures w.users[u.id] == u && !u.service
  {
    assert w.Key(w.users[id].nick) == c.key ==> w.nicks[c.key] == id;
  }

  lemma UserLineShape(u: UserState, server: string)
    ensures var m := UserLine(u, server);
            && |m.params| >= 6 && m.params[0] == u.nick
            && VerbOf(m.command) == (if u.service then ServiceVerb else NickVerb)
            && (!u.service ==> |m.params| == 8 && AnnouncedTS(m.params) == u.ts && m.params[4] == server)
  {
    VerbsOf();
    ParseFormat(u.ts);
  }

  /** What a user line announces. */
  lemma UserLineAnnounces(c: Clash, u: UserState, w: WorldState, server: string, id: UserID)
    requires IsHome(c, u, w) && ServerName(server) && IsLocal(w, id)
    ensures var m := UserLine(w.users[id], server);
            && !Renames(m) && VerbOf(m.command) != KillVerb
            && (Announces(c.mapping, m, c.key) <==> id == u.id)
            && (id == u.id ==> AnnouncedTS(m.params) == u.ts && m.params[4] != "")
            && (VerbOf(m.command) == ServiceVerb ==> Fold(c.mapping, m.params[0]) != c.key)
  {
    hide IsHome, AnnouncedTS, VerbOf, UserLine;
    HomeKey(c, u, w, id);
    UserLineShape(w.users[id], server);
  }

  lemma OneOnce(c: Clash, u: UserState, m: Message, count: nat)
    requires count == if Announces(c.mapping, m, c.key) then 1 else 0
    requires !Renames(m) && VerbOf(m.command) != KillVerb
    requires Announces(c.mapping, m, c.key) ==> AnnouncedTS(m.params) == u.ts && m.params[4] != ""
    requires VerbOf(m.command) == ServiceVerb && |m.params| >= 6 ==> Fold(c.mapping, m.params[0]) != c.key
    ensures AnnouncesOnce(c, u, [m], count)
  {
    assert [m][1..] == [] && Pending(c, []) == 0;
  }

  lemma UserLineOnce(c: Clash, u: UserState, w: WorldState, server: string, id: UserID)
    requires IsHome(c, u, w) && ServerName(server) && id in w.users
    ensures AnnouncesOnce(c, u, UserLinesOf(w, server, id), if id == u.id then 1 else 0)
  {
    if IsLocal(w, id) {
      UserLineAnnounces(c, u, w, server, id);
      OneOnce(c, u, UserLine(w.users[id], server), if id == u.id then 1 else 0);
    } else {
      assert Pending(c, []) == 0;
    }
  }

  lemma OnceConcat(c: Clash, u: UserState, a: seq<Message>, b: seq<Message>, i: nat, j: nat)
    requires AnnouncesOnce(c, u, a, i) && AnnouncesOnce(c, u, b, j)
    ensures AnnouncesOnce(c, u, a + b, i + j)
  {
    PendingConcat(c, a, b);
    assert forall m :: m in a + b ==> m in a || m in b;
  }

  lemma {:induction false} UserLinesOnce(c: Clash, u: UserState, w: WorldState, server: string, ids: seq<UserID>)
    requires IsHome(c, u, w) && ServerName(server) && NoDups(ids) && forall id :: id in ids ==> id in w.users
    ensures AnnouncesOnce(c, u, UserLines(w, server, ids), if u.id in ids then 1 else 0)
    decreases |ids|
  {
    if ids != [] {
      UserLineOnce(c, u, w, server, ids[0]);
      UserLinesOnce(c, u, w, server, ids[1..]);
      OnceConcat(c, u, UserLinesOf(w, server, ids[0]), UserLines(w, server, ids[1..]),
                 if ids[0] == u.id then 1 else 0, if u.id in ids[1..] then 1 else 0);
      assert ids == [ids[0]] + ids[1..];
    }
  }

  lemma BurstOnce(c: Clash, u: UserState, w: WorldState, server: string, o: Order)
    requires IsHome(c, u, w) && ServerName(server) && Orders(o, w)
    ensures AnnouncesOnce(c, u, BurstLines(w, server, o), 1)
  {
    var chans := AllChanLines(w, server, o.chans, o.inside);
    UserLinesOnce(c, u, w, server, o.users);
    ChannelHalf(w, server, o);
    assert forall m :: m in chans ==> AboutChannels(m) && !Announces(c.mapping, m, c.key) && !Renames(m);
    NonePending(c, chans);
    OnceConcat(c, u, UserLines(w, server, o.users), chans, 1, 0);
  }

  /** Two nodes that have just sent each other their bursts. */
  ghost predicate Starts(c: Clash, net: Net, oLow: Order, oHigh: Order) {
    && IsClash(c) && IsHome(c, c.low, net.low.w) && IsHome(c, c.high, net.high.w)
    && ServerName(net.low.name) && ServerName(net.high.name)
    && net.low.closing == {} && net.high.closing == {} && DistinctNicks(net.low) && DistinctNicks(net.high)
    && (c.low.id in net.low.conns ==> net.low.conns[c.low.id] == c.low)
    && (c.high.id in net.high.conns ==> net.high.conns[c.high.id] == c.high)
    && Orders(oLow, net.low.w) && Orders(oHigh, net.high.w)
    && net.toHigh == BurstLines(net.low.w, net.low.name, oLow)
    && net.toLow == BurstLines(net.high.w, net.high.name, oHigh)
  }

  lemma StartsInv(c: Clash, net: Net, oLow: Order, oHigh: Order)
    requires Starts(c, net, oLow, oHigh)
    ensures Inv(c, net)
  {
    BurstOnce(c, c.low, net.low.w, net.low.name, oLow);
    BurstOnce(c, c.high, net.high.w, net.high.name, oHigh);
  }

  /** The older user has the nick on its node. The younger one's record and connection are gone, and nobody has
      the nick on that node. */
  ghost predicate OlderHasWon(c: Clash, net: Net) {
    && net.low.w.FindByNick(c.high.nick) == Some(c.low)
    && c.high.id !in net.high.w.users && c.high.id !in net.high.conns && net.high.w.FindByNick(c.high.nick) == None
  }

  /** The connection that is cut for a nick is the only one of that nick, so it does not matter which of the
      connections is looked at first. */
  lemma {:induction false} OneConnectionIsCut(c: Clash, net: Net, oLow: Order, oHigh: Order, events: seq<Event>,
                                              nick: string)
    requires Starts(c, net, oLow, oHigh)
    ensures var end := Run(net, events); CutsOnly(end.low, nick) && CutsOnly(end.high, nick)
  {
    RunKeepsNicks(net, events);
    DistinctIsCutAlone(Run(net, events).low, nick);
    DistinctIsCutAlone(Run(net, events).high, nick);
  }

  /** Two local users on different nodes hold nicks that fold to the same key, with distinct timestamps.
      Both nodes have sent their bursts. In whatever order the bursts, the KILLs and QUITs they cause and
      the teardown of dropped connections are handled, the older user stays on its node throughout. Once
      nothing is in flight or closing, the younger user's record and connection are gone, and nobody holds
      the nick on its node: the KILL that answers the younger user's announcement follows the older user's
      own announcement over the same link, and removes the copy that one filed. */
  lemma LowerTimestampWins(c: Clash, net: Net, oLow: Order, oHigh: Order, events: seq<Event>)
    requires Starts(c, net, oLow, oHigh)
    ensures var end := Run(net, events);
            && end.low.w.FindByNick(c.low.nick) == Some(c.low) && c.low.id !in end.low.closing
            && (Settled(end) ==> OlderHasWon(c, end))
  {
    StartsInv(c, net, oLow, oHigh);
    RunKeeps(c, net, events);
    var end := Run(net, events);
    assert c.low.nick != "" && c.high.nick != "" && c.low.id in net.low.w.users && c.high.id in net.high.w.users;
    FindIsHolder(end.low.w, c.low.nick);
    FindIsHolder(end.low.w, c.high.nick);
    FindIsHolder(end.high.w, c.high.nick);
  }

  // ----- one node: any number of announcements, in any order -----

  function AnnounceAll(w: WorldState, local: string, us: seq<UserState>): WorldState
    decreases |us|
  {
    if us == [] then w else AnnounceAll(Announce(w, local, us[0]).w, local, us[1..])
  }

  /** Announcements of one nick, each with its own timestamp, none of them that of the present holder. */
  ghost predicate DistinctClaims(w: WorldState, key: string, us: seq<UserState>) {
    && (forall i :: 0 <= i < |us| ==> us[i].nick != "" && w.Key(us[i].nick) == key && us[i].ts != 0)
    && (forall i, j :: 0 <= i < j < |us| ==> us[i].ts != us[j].ts)
    && (Holder(w, key).Some? ==> Holder(w, key).value.ts != 0)
    && (Holder(w, key).Some? ==> forall i :: 0 <= i < |us| ==> us[i].ts != Holder(w, key).value.ts)
  }

  /** The holder after one more announcement: whichever of the two is older. */
  lemma OlderHolds(w: WorldState, local: string, u: UserState, key: string)
    requires w.UsersValid() && DistinctClaims(w, key, [u])
    ensures var w', before := Announce(w, local, u).w, Holder(w, key);
            && w'.UsersValid() && w'.mapping == w.mapping && Holder(w', key).Some?
            && (if before.Some? && before.value.ts < u.ts then Holder(w', key) == before
                else Holder(w', key).value == u.(id := Holder(w', key).value.id))
  {
    assert [u][0] == u;
    FindIsHolder(w, u.nick);
    HolderAfterAdd(w, u, key);
    var before := Holder(w, key);
    if before.Some? {
      HolderAfterRemove(w, before.value.id, key);
      HolderAfterAdd(w.RemoveUser(before.value.id), u, key);
    }
  }

  /** Whatever the order, the announcement (or present holder) with the least timestamp remains. */
  lemma {:induction false} LeastTimestampRemains(w: WorldState, local: string, us: seq<UserState>, key: string)
    requires w.UsersValid() && DistinctClaims(w, key, us) && (us != [] || Holder(w, key).Some?)
    ensures var end := Holder(AnnounceAll(w, local, us), key);
            && end.Some?
            && (end == Holder(w, key) || exists i :: 0 <= i < |us| && end.value == us[i].(id := end.value.id))
            && (forall i :: 0 <= i < |us| ==> end.value.ts <= us[i].ts)
            && (Holder(w, key).Some? ==> end.value.ts <= Holder(w, key).value.ts)
    decreases |us|
  {
    if us != [] {
      var w' := Announce(w, local, us[0]).w;
      assert [us[0]][0] == us[0];
      OlderHolds(w, local, us[0], key);
      assert forall i :: 0 <= i < |us[1..]| ==> us[1..][i] == us[i + 1];
      assert DistinctClaims(w', key, us[1..]);
      LeastTimestampRemains(w', local, us[1..], key);
    }
  }

  /** A nick announced without a timestamp goes to whoever is announced, and so does the nick of a holder without
      one: the holder's record is replaced, a local holder is cut off, and no KILL is sent. */
  lemma UntimedIsReplaced(w: WorldState, local: string, u: UserState, key: string)
    requires w.UsersValid() && u.nick != "" && w.Key(u.nick) == key && Holder(w, key).Some?
    requires u.ts == 0 || Holder(w, key).value.ts == 0
    ensures var r, before := Announce(w, local, u), Holder(w, key).value;
            && Holder(r.w, key) == Some(u.(id := w.lastId + 1)) && before.id !in r.w.users
            && r.sent == [] && r.drops == if before.IsRemote() then [] else [before.nick]
  {
    FindIsHolder(w, u.nick);
    var before := Holder(w, key).value;
    HolderAfterRemove(w, before.id, key);
    HolderAfterAdd(w.RemoveUser(before.id), u, key);
  }

  // ----- KILL -----

  /** A KILL of a local user tells its connection to close, and nothing else happens until it has. */
  lemma KillClosesLocal(n: Node, peer: string, m: Message, u: UserState, now: Int64)
    requires n.w.Valid() && DistinctNicks(n) && VerbOf(m.command) == KillVerb && |m.params| >= 2
    requires n.w.FindByNick(m.params[0]) == Some(u) && !u.IsRemote() && u.id in n.conns && n.conns[u.id] == u
    ensures var n' := After(n, Handle(n.w, n.name, peer, m, now));
            && n' == n.(closing := n.closing + {u.id})
            && var end := Closed(n', u.id);
               && end.w.FindByNick(m.params[0]).None? && u.id !in end.w.users && u.id !in end.conns
               && forall c :: c in end.w.chans ==> u.id !in end.w.chans[c].members
  {
    DistinctIsCutAlone(n, u.nick);
    FindIsHolder(n.w, m.params[0]);
    QuitHolder(n.w, u.id, n.w.Key(m.params[0]));
    FindIsHolder(n.w.Quit(u.id), m.params[0]);
  }

  /** A KILL of a user of another node removes the record, and no other; no connection is touched. */
  lemma KillRemovesRemote(n: Node, peer: string, m: Message, u: UserState, now: Int64)
    requires n.w.UsersValid() && VerbOf(m.command) == KillVerb && |m.params| >= 2
    requires n.w.FindByNick(m.params[0]) == Some(u) && u.IsRemote()
    ensures var n' := After(n, Handle(n.w, n.name, peer, m, now));
            && n'.w.FindByNick(m.params[0]).None? && n'.w.users == n.w.users - {u.id} && n'.w.chans == n.w.chans
            && n'.conns == n.conns && n'.closing == n.closing
  {
    FindIsHolder(n.w, m.params[0]);
    HolderAfterRemove(n.w, u.id, n.w.Key(m.params[0]));
    FindIsHolder(n.w.RemoveUser(u.id), m.params[0]);
  }

  /** A KILL of nobody does nothing. */
  lemma KillOfNobody(n: Node, peer: string, m: Message, now: Int64)
    requires VerbOf(m.command) == KillVerb && (|m.params| >= 2 ==> n.w.FindByNick(m.params[0]).None?)
    ensures After(n, Handle(n.w, n.name, peer, m, now)) == n
  {
    assert n.closing + {} == n.closing;
  }
}
