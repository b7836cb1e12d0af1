/** Nick collision between two linked nodes: the user with the lower timestamp survives on its home
    node in every interleaving, and when everything has settled the other one is gone from both. */
module Collision {
  import opened Prelude
  import opened Numbers
  import opened CaseMap
  import opened Message
  import opened State
  import opened FedSpec
  import opened BurstUsers

  // ----- two nodes and the link between them -----

  /** A node with its client connections (by user ID, with the user record the connection holds on to)
      and the connections that have been told to close but are not torn down yet. */
  datatype Node = Node(name: string, w: WorldState, conns: map<UserID, UserState>, closing: set<UserID>)

  /** Two nodes and the messages in flight in each direction, oldest first. */
  datatype Net = Net(low: Node, high: Node, toHigh: seq<Message>, toLow: seq<Message>)

  /** What can happen next. Messages are handled at time `now`; a closing connection is torn down. */
  datatype Event = HighReceives(now: Int64) | LowReceives(now: Int64) | HighCloses(id: UserID) | LowCloses(id: UserID)

  /** DropLocalUser finds the connection by the nick of the user it holds. No two have the same (DistinctNicks). */
  function Dropped(conns: map<UserID, UserState>, nicks: seq<string>): set<UserID> {
    set id | id in conns && conns[id].nick in nicks
  }

  function After(n: Node, r: Reaction): Node {
    n.(w := r.w, closing := n.closing + Dropped(n.conns, r.drops))
  }

  /** Conn.close: the user leaves every channel and the world, and the connection is forgotten. */
  function Closed(n: Node, id: UserID): Node {
    n.(w := n.w.Quit(id), conns := n.conns - {id}, closing := n.closing - {id})
  }

  function QuitLine(u: UserState): Message {
    Plain(u.Hostmask(), "QUIT", ["Client closed connection"])
  }

  function Next(net: Net, e: Event): Net {
    match e
    case HighReceives(now) =>
      if net.toHigh == [] then net
      else
        var r := Handle(net.high.w, net.high.name, net.low.name, net.toHigh[0], now);
        net.(high := After(net.high, r), toHigh := net.toHigh[1..], toLow := net.toLow + r.sent)
    case LowReceives(now) =>
      if net.toLow == [] then net
      else
        var r := Handle(net.low.w, net.low.name, net.high.name, net.toLow[0], now);
        net.(low := After(net.low, r), toLow := net.toLow[1..], toHigh := net.toHigh + r.sent)
    case HighCloses(id) =>
      if id !in net.high.closing || id !in net.high.conns then net
      else net.(high := Closed(net.high, id), toLow := net.toLow + [QuitLine(net.high.conns[id])])
    case LowCloses(id) =>
      if id !in net.low.closing || id !in net.low.conns then net
      else net.(low := Closed(net.low, id), toHigh := net.toHigh + [QuitLine(net.low.conns[id])])
  }

  function Run(net: Net, events: seq<Event>): Net
    decreases |events|
  {
    if events == [] then net else Run(Next(net, events[0]), events[1..])
  }

  /** No two connections hold users of the same nick. */
  ghost predicate DistinctNicks(n: Node) {
    forall i, j :: i in n.conns && j in n.conns && n.conns[i].nick == n.conns[j].nick ==> i == j
  }

  /** Whichever connection of that nick is found first, it is the one that is cut. */
  ghost predicate CutsOnly(n: Node, nick: string) {
    && (Dropped(n.conns, [nick]) == {} <==> forall id :: id in n.conns ==> n.conns[id].nick != nick)
    && forall id :: id in n.conns && n.conns[id].nick == nick ==> Dropped(n.conns, [nick]) == {id}
  }

  lemma DistinctIsCutAlone(n: Node, nick: string)
    requires DistinctNicks(n)
    ensures CutsOnly(n, nick)
  {
    forall id | id in n.conns && n.conns[id].nick == nick ensures Dropped(n.conns, [nick]) == {id} {
      assert id in Dropped(n.conns, [nick]);
    }
  }

  /** Connections are only lost, and keep the users they hold. */
  lemma {:induction false} RunKeepsNicks(net: Net, events: seq<Event>)
    requires DistinctNicks(net.low) && DistinctNicks(net.high)
    ensures var end := Run(net, events); DistinctNicks(end.low) && DistinctNicks(end.high)
    decreases |events|
  {
    if events != [] {
      RunKeepsNicks(Next(net, events[0]), events[1..]);
    }
  }

  /** Nothing is in flight and nothing is closing. */
  predicate Settled(net: Net) {
    net.toHigh == [] && net.toLow == [] && net.low.closing == {} && net.high.closing == {}
  }

  // ----- who holds a nick -----

  function Holder(w: WorldState, key: string): Option<UserState> {
    if key in w.nicks && w.nicks[key] in w.users then Some(w.users[w.nicks[key]]) else None
  }

  /** A timestamped announcement of a nick with this folded form. */
  predicate Announces(mapping: CaseMapping, m: Message, key: string) {
    VerbOf(m.command) == NickVerb && |m.params| >= 7 && Fold(mapping, m.params[0]) == key
  }

  /** A KILL that names the nick. */
  predicate Kills(mapping: CaseMapping, m: Message, key: string) {
    VerbOf(m.command) == KillVerb && |m.params| >= 2 && Fold(mapping, m.params[0]) == key
  }

  predicate Renames(m: Message) {
    VerbOf(m.command) == NickVerb && |m.params| == 1
  }

  // ----- the effect of user messages on the holder of one nick -----

  lemma SameUsersSameHolder(w: WorldState, w': WorldState, key: string)
    requires w.UsersValid() && SameUsers(w, w')
    ensures w'.UsersValid() && Holder(w', key) == Holder(w, key)
  {
  }

  lemma FindIsHolder(w: WorldState, nick: string)
    requires w.UsersValid()
    ensures nick != "" ==> w.FindByNick(nick) == Holder(w, w.Key(nick))
    ensures w.FindByNick(nick).Some? ==> nick != "" && w.Key(w.FindByNick(nick).value.nick) == w.Key(nick)
  {
  }

  lemma HolderAdded(w: WorldState, u: UserState, key: string)
    requires w.UsersValid()
    ensures Holder(w.AddUser(u), key) ==
              if w.CanAdd(u) && w.Key(u.nick) == key then Some(u.(id := w.lastId + 1)) else Holder(w, key)
  {
  }

  lemma HolderAfterAdd(w: WorldState, u: UserState, key: string)
    requires w.UsersValid()
    ensures w.AddUser(u).UsersValid()
    ensures Holder(w.AddUser(u), key) ==
              if w.CanAdd(u) && w.Key(u.nick) == key then Some(u.(id := w.lastId + 1)) else Holder(w, key)
  {
    hide WorldState.UsersValid, Holder;
    AddUserKeeps(w, u);
    HolderAdded(w, u, key);
  }

  lemma HolderAfterRemove(w: WorldState, id: UserID, key: string)
    requires w.UsersValid()
    ensures w.RemoveUser(id).UsersValid()
    ensures Holder(w.RemoveUser(id), key)
         == if Holder(w, key).Some? && Holder(w, key).value.id == id then None else Holder(w, key)
  {
    RemoveUserKeeps(w, id);
  }

  lemma HolderRenamed(w: WorldState, id: UserID, nick: string, key: string)
    requires w.UsersValid()
    requires || (w.Key(nick) != key && (id in w.users ==> w.Key(w.users[id].nick) != key))
             || (Holder(w, key).Some? && Holder(w, key).value.id != id)
    ensures Holder(w.RenameUser(id, nick), key) == Holder(w, key)
  {
  }

  lemma HolderAfterRename(w: WorldState, id: UserID, nick: string, key: string)
    requires w.UsersValid()
    requires || (w.Key(nick) != key && (id in w.users ==> w.Key(w.users[id].nick) != key))
             || (Holder(w, key).Some? && Holder(w, key).value.id != id)
    ensures w.RenameUser(id, nick).UsersValid()
    ensures Holder(w.RenameUser(id, nick), key) == Holder(w, key)
  {
    hide WorldState.UsersValid, Holder;
    RenameUserKeeps(w, id, nick);
    HolderRenamed(w, id, nick, key);
  }

  // ----- the clash and what the two nodes may say about it -----

  /** Two local users on different nodes under nicks with the same folded form `key`. */
  datatype Clash = Clash(mapping: CaseMapping, key: string, low: UserState, high: UserState)

  ghost predicate IsClash(c: Clash) {
    && Fold(c.mapping, c.low.nick) == c.key && Fold(c.mapping, c.high.nick) == c.key
    && !c.low.IsRemote() && !c.high.IsRemote()
    && c.low.ts != 0 && c.high.ts != 0 && c.low.ts < c.high.ts
  }

  /** The home node of the older user still has it. */
  ghost predicate LowOk(c: Clash, w: WorldState) {
    w.UsersValid() && w.mapping == c.mapping && Holder(w, c.key) == Some(c.low)
  }

  ghost predicate HasHigh(c: Clash, w: WorldState) {
    Holder(w, c.key) == Some(c.high)
  }

  ghost predicate HasCopy(c: Clash, w: WorldState) {
    Holder(w, c.key).Some? && Holder(w, c.key).value.IsRemote() && Holder(w, c.key).value.ts == c.low.ts
  }

  /** The home node of the younger user has it, or has dropped it for good; then the nick is free or
      held by a copy of the older user. */
  ghost predicate HighOk(c: Clash, w: WorldState) {
    && w.UsersValid() && w.mapping == c.mapping && c.high.id <= w.lastId
    && (HasHigh(c, w) || (c.high.id !in w.users && (Holder(w, c.key).None? || HasCopy(c, w))))
  }

  /** The younger user's node never asks to kill the older user's nick. */
  ghost predicate SafeForLow(c: Clash, m: Message) {
    && (Announces(c.mapping, m, c.key) ==> AnnouncedTS(m.params) == c.high.ts)
    && (VerbOf(m.command) == KillVerb && |m.params| >= 2 ==> Fold(c.mapping, m.params[0]) != c.key)
  }

  /** The older user's node announces only the older user under the nick. */
  ghost predicate SafeForHigh(c: Clash, m: Message) {
    && (Announces(c.mapping, m, c.key) ==> AnnouncedTS(m.params) == c.low.ts && m.params[4] != "")
    && (Renames(m) ==> Fold(c.mapping, m.params[0]) != c.key && Fold(c.mapping, SenderOf(m.prefix)) != c.key)
    && (VerbOf(m.command) == ServiceVerb && |m.params| >= 6 ==> Fold(c.mapping, m.params[0]) != c.key)
  }

  lemma KillIsSafe(c: Clash, local: string, nick: string, reason: string)
    ensures SafeForHigh(c, Kill(local, nick, reason)) && !Announces(c.mapping, Kill(local, nick, reason), c.key)
    ensures Fold(c.mapping, nick) != c.key ==> SafeForLow(c, Kill(local, nick, reason))
    ensures Fold(c.mapping, nick) == c.key ==> Kills(c.mapping, Kill(local, nick, reason), c.key)
  {
    VerbsOf();
  }

  /** Users that are gone stay gone. */
  ghost predicate NoReturn(w: WorldState, w': WorldState) {
    w'.lastId >= w.lastId && forall id :: id <= w.lastId && id in w'.users ==> id in w.users
  }

  ghost predicate Elsewhere(w: WorldState, w': WorldState, key: string) {
    w'.UsersValid() && w'.mapping == w.mapping && Holder(w', key) == Holder(w, key) && NoReturn(w, w')
  }

  lemma AddElsewhere(w: WorldState, u: UserState, key: string)
    requires w.UsersValid() && w.Key(u.nick) != key
    ensures Elsewhere(w, w.AddUser(u), key)
  {
    HolderAfterAdd(w, u, key);
  }

  lemma RemoveElsewhere(w: WorldState, id: UserID, key: string)
    requires w.UsersValid() && (id in w.users ==> w.Key(w.users[id].nick) != key)
    ensures Elsewhere(w, w.RemoveUser(id), key)
  {
    HolderAfterRemove(w, id, key);
  }

  /** An announcement of another nick leaves the holder of `key` alone. */
  lemma AnnounceElsewhere(w: WorldState, local: string, u: UserState, key: string)
    requires w.UsersValid() && w.Key(u.nick) != key
    ensures Elsewhere(w, Announce(w, local, u).w, key)
  {
    FindIsHolder(w, u.nick);
    AddElsewhere(w, u, key);
    var existing := w.FindByNick(u.nick);
    if existing.Some? {
      RemoveElsewhere(w, existing.value.id, key);
      AddElsewhere(w.RemoveUser(existing.value.id), u, key);
    }
  }

  /** An announcement of another nick kills and drops nothing but that nick. */
  lemma AnnounceKillsOnlyItself(c: Clash, w: WorldState, local: string, u: UserState)
    requires w.UsersValid() && w.mapping == c.mapping && w.Key(u.nick) != c.key
    ensures forall m :: m in Announce(w, local, u).sent ==>
            SafeForHigh(c, m) && SafeForLow(c, m) && !Announces(c.mapping, m, c.key)
    ensures forall n :: n in Announce(w, local, u).drops ==> Fold(c.mapping, n) != c.key
  {
    FindIsHolder(w, u.nick);
    KillIsSafe(c, local, u.nick, "Nick collision (equal TS, both lose)");
    KillIsSafe(c, local, u.nick, "Nick collision (TS lost)");
  }

  // ----- the older user's node -----

  /** The answer to the younger user's announcement is a KILL of the nick. */
  ghost predicate AnswersWithKill(c: Clash, r: Reaction) {
    |r.sent| == 1 && Kills(c.mapping, r.sent[0], c.key)
  }

  lemma LowAnnounce(c: Clash, w: WorldState, local: string, u: UserState)
    requires IsClash(c) && LowOk(c, w) && (w.Key(u.nick) == c.key ==> u.ts == c.high.ts)
    ensures var r := Announce(w, local, u);
            && LowOk(c, r.w)
            && (w.Key(u.nick) == c.key ==> AnswersWithKill(c, r))
            && (forall m :: m in r.sent ==> SafeForHigh(c, m) && !Announces(c.mapping, m, c.key))
            && (forall n :: n in r.drops ==> Fold(c.mapping, n) != c.key)
  {
    if w.Key(u.nick) == c.key {
      FindIsHolder(w, u.nick);
      KillIsSafe(c, local, u.nick, "Nick collision (TS lost)");
    } else {
      AnnounceElsewhere(w, local, u, c.key);
      AnnounceKillsOnlyItself(c, w, local, u);
    }
  }

  lemma LowRename(c: Clash, w: WorldState, local: string, m: Message)
    requires IsClash(c) && LowOk(c, w) && |m.params| == 1 && m.prefix != ""
    ensures var r := RemoteNick(w, local, m); LowOk(c, r.w) && r.sent == [] && r.drops == []
  {
    var u := w.FindByNick(SenderOf(m.prefix));
    FindIsHolder(w, SenderOf(m.prefix));
    if u.Some? && u.value.IsRemote() {
      HolderAfterRename(w, u.value.id, m.params[0], c.key);
    }
  }

  /** The record a SERVICE line files. */
  function ServiceUser(peer: string, m: Message, now: Int64): UserState
    requires |m.params| >= 6
  {
    var server := if SenderOf(m.prefix) == "" then peer else SenderOf(m.prefix);
    UserState(0, m.params[0], "service", server, m.params[5], "", true, server, now, true, m.params[3], m.params[2])
  }

  lemma LowService(c: Clash, w: WorldState, peer: string, m: Message, now: Int64)
    requires IsClash(c) && LowOk(c, w)
    ensures LowOk(c, RemoteService(w, peer, m, now))
  {
    if |m.params| >= 6 {
      FindIsHolder(w, m.params[0]);
      HolderAfterAdd(w, ServiceUser(peer, m, now), c.key);
    }
  }

  lemma LowQuit(c: Clash, w: WorldState, m: Message)
    requires IsClash(c) && LowOk(c, w)
    ensures LowOk(c, RemoteQuit(w, m))
  {
    var u := w.FindByNick(SenderOf(m.prefix));
    FindIsHolder(w, SenderOf(m.prefix));
    if u.Some? && u.value.IsRemote() {
      HolderAfterRemove(w, u.value.id, c.key);
    }
  }

  lemma LowKill(c: Clash, w: WorldState, m: Message)
    requires IsClash(c) && LowOk(c, w) && (|m.params| >= 2 ==> Fold(c.mapping, m.params[0]) != c.key)
    ensures var r := RemoteKill(w, m);
            LowOk(c, r.w) && r.sent == [] && forall n :: n in r.drops ==> Fold(c.mapping, n) != c.key
  {
    if |m.params| >= 2 && w.FindByNick(m.params[0]).Some? {
      FindIsHolder(w, m.params[0]);
      HolderAfterRemove(w, w.FindByNick(m.params[0]).value.id, c.key);
    }
  }

  lemma LowReacts(c: Clash, w: WorldState, local: string, peer: string, m: Message, now: Int64)
    requires IsClash(c) && LowOk(c, w) && SafeForLow(c, m)
    ensures var r := Handle(w, local, peer, m, now);
            && LowOk(c, r.w)
            && (Announces(c.mapping, m, c.key) ==> AnswersWithKill(c, r))
            && (forall s :: s in r.sent ==> SafeForHigh(c, s) && !Announces(c.mapping, s, c.key))
            && (forall n :: n in r.drops ==> Fold(c.mapping, n) != c.key)
  {
    match VerbOf(m.command)
    case NickVerb =>
      if |m.params| == 1 && m.prefix != "" {
        LowRename(c, w, local, m);
      } else if |m.params| >= 7 {
        LowAnnounce(c, w, local, AnnouncedUser(m.params));
      }
    case ServiceVerb => LowService(c, w, peer, m, now);
    case QuitVerb => LowQuit(c, w, m);
    case KillVerb => LowKill(c, w, m);
    case _ =>
      ChannelVerbsKeepUsers(w, local, peer, m, now);
      SameUsersSameHolder(w, Handle(w, local, peer, m, now).w, c.key);
  }

  // ----- the younger user's node -----

  /** What handling one message may do to the holder of the nick: the younger user can only go away,
      and then its connection is cut; a copy of the older one appears only through an announcement. */
  ghost predicate HighMoves(c: Clash, w: WorldState, r: Reaction, announced: bool) {
    && HighOk(c, r.w)
    && (HasHigh(c, r.w) ==> HasHigh(c, w) && !announced)
    && (HasHigh(c, w) && !HasHigh(c, r.w) ==> c.high.nick in r.drops)
    && (HasCopy(c, r.w) ==> HasCopy(c, w) || announced)
  }

  lemma HighLoses(c: Clash, w: WorldState, local: string, u: UserState)
    requires IsClash(c) && HighOk(c, w) && !HasCopy(c, w)
    requires w.Key(u.nick) == c.key && u.ts == c.low.ts && u.IsRemote()
    ensures var r := Announce(w, local, u); HighMoves(c, w, r, true) && r.sent == []
  {
    FindIsHolder(w, u.nick);
    var existing := w.FindByNick(u.nick);
    if existing.None? {
      HolderAfterAdd(w, u, c.key);
    } else {
      HolderAfterRemove(w, existing.value.id, c.key);
      HolderAfterAdd(w.RemoveUser(existing.value.id), u, c.key);
    }
  }

  lemma HighOtherAnnounce(c: Clash, w: WorldState, local: string, u: UserState)
    requires IsClash(c) && HighOk(c, w) && w.Key(u.nick) != c.key
    ensures var r := Announce(w, local, u); HighMoves(c, w, r, false) && forall m :: m in r.sent ==> SafeForLow(c, m)
  {
    AnnounceElsewhere(w, local, u, c.key);
    AnnounceKillsOnlyItself(c, w, local, u);
  }

  lemma HighRename(c: Clash, w: WorldState, local: string, m: Message)
    requires IsClash(c) && HighOk(c, w) && |m.params| == 1 && m.prefix != ""
    requires Fold(c.mapping, m.params[0]) != c.key && Fold(c.mapping, SenderOf(m.prefix)) != c.key
    ensures var r := RemoteNick(w, local, m); HighMoves(c, w, r, false) && r.sent == []
  {
    var u := w.FindByNick(SenderOf(m.prefix));
    FindIsHolder(w, SenderOf(m.prefix));
    if u.Some? && u.value.IsRemote() {
      HolderAfterRename(w, u.value.id, m.params[0], c.key);
    }
  }

  lemma HighService(c: Clash, w: WorldState, peer: string, m: Message, now: Int64)
    requires IsClash(c) && HighOk(c, w) && (|m.params| >= 6 ==> Fold(c.mapping, m.params[0]) != c.key)
    ensures HighMoves(c, w, Quietly(RemoteService(w, peer, m, now)), false)
  {
    if |m.params| >= 6 {
      FindIsHolder(w, m.params[0]);
      HolderAfterAdd(w, ServiceUser(peer, m, now), c.key);
    }
  }

  /** Removing a remote user never removes the younger one, and leaves no copy under its own ID. */
  lemma HighRemoves(c: Clash, w: WorldState, id: UserID)
    requires IsClash(c) && HighOk(c, w) && (id in w.users ==> w.users[id].IsRemote())
    ensures HighMoves(c, w, Quietly(w.RemoveUser(id)), false)
    ensures Holder(w, c.key).Some? && Holder(w, c.key).value.id == id ==> !HasCopy(c, w.RemoveUser(id))
  {
    HolderAfterRemove(w, id, c.key);
  }

  lemma HighQuit(c: Clash, w: WorldState, m: Message)
    requires IsClash(c) && HighOk(c, w)
    ensures HighMoves(c, w, Quietly(RemoteQuit(w, m)), false)
  {
    var u := w.FindByNick(SenderOf(m.prefix));
    FindIsHolder(w, SenderOf(m.prefix));
    if u.Some? && u.value.IsRemote() {
      HighRemoves(c, w, u.value.id);
    }
  }

  /** A KILL of the nick leaves no copy of the older user behind. */
  lemma HighKill(c: Clash, w: WorldState, m: Message)
    requires IsClash(c) && HighOk(c, w)
    ensures var r := RemoteKill(w, m);
            HighMoves(c, w, r, false) && r.sent == [] && (Kills(c.mapping, m, c.key) ==> !HasCopy(c, r.w))
  {
    if |m.params| >= 2 {
      var target := w.FindByNick(m.params[0]);
      FindIsHolder(w, m.params[0]);
      if Kills(c.mapping, m, c.key) && Holder(w, c.key).Some? {
        assert |m.params[0]| == |c.key| == |Holder(w, c.key).value.nick| > 0;
      }
      if target.Some? && target.value.IsRemote() {
        HighRemoves(c, w, target.value.id);
      }
    }
  }

  lemma HighReacts(c: Clash, w: WorldState, local: string, peer: string, m: Message, now: Int64)
    requires IsClash(c) && HighOk(c, w) && SafeForHigh(c, m)
    requires Announces(c.mapping, m, c.key) ==> !HasCopy(c, w)
    ensures var r := Handle(w, local, peer, m, now);
            && HighMoves(c, w, r, Announces(c.mapping, m, c.key))
            && (Kills(c.mapping, m, c.key) ==> !HasCopy(c, r.w))
            && forall s :: s in r.sent ==> SafeForLow(c, s)
  {
    match VerbOf(m.command)
    case NickVerb =>
      if |m.params| == 1 && m.prefix != "" {
        HighRename(c, w, local, m);
      } else if |m.params| >= 7 {
        if Announces(c.mapping, m, c.key) {
          HighLoses(c, w, local, AnnouncedUser(m.params));
        } else {
          HighOtherAnnounce(c, w, local, AnnouncedUser(m.params));
        }
      }
    case ServiceVerb => HighService(c, w, peer, m, now);
    case QuitVerb => HighQuit(c, w, m);
    case KillVerb => HighKill(c, w, m);
    case _ =>
      ChannelVerbsKeepUsers(w, local, peer, m, now);
      SameUsersSameHolder(w, Handle(w, local, peer, m, now).w, c.key);
  }
}
