/** What a node does with each message that arrives over a federation link, and what it sends when a
    link comes up. */
module FedSpec {
  import opened Prelude
  import opened Numbers
  import opened Message
  import opened State
  import opened ModeSpec

  /** The world after a message, the messages sent back over the link, and the nicks of the local
      connections to be cut. */
  datatype Reaction = Reaction(w: WorldState, sent: seq<Message>, drops: seq<string>)

  function Quietly(w: WorldState): Reaction {
    Reaction(w, [], [])
  }

  // ----- users -----

  function TrimPlus(s: string): string {
    if s != "" && s[0] == '+' then s[1..] else s
  }

  /** A NICK announcement carries a timestamp when it has eight parameters and the seventh is a number;
      an announcement without one counts as timestamp zero. */
  function AnnouncedTS(params: seq<string>): Int64 {
    if |params| >= 8 && ParseInt(params[6]).Some? then ParseInt(params[6]).value else 0
  }

  function AnnouncedUser(params: seq<string>): UserState
    requires |params| >= 7
  {
    var realname := if |params| >= 8 && ParseInt(params[6]).Some? then params[7] else params[6];
    UserState(0, params[0], params[2], params[3], realname, TrimPlus(params[5]), true, params[4],
              AnnouncedTS(params), false, "", "")
  }

  function Kill(local: string, nick: string, reason: string): Message {
    Plain(local, "KILL", [nick, reason])
  }

  function DropIfLocal(u: UserState): seq<string> {
    if u.IsRemote() then [] else [u.nick]
  }

  /** A nick announcement. On a collision the lower timestamp wins and the loser is killed; on equal
      timestamps both lose; a missing timestamp always wins. */
  function Announce(w: WorldState, local: string, u: UserState): Reaction {
    var existing := w.FindByNick(u.nick);
    if existing.None? then Quietly(w.AddUser(u))
    else
      var holder := existing.value;
      if u.ts != 0 && holder.ts != 0 && u.ts == holder.ts then
        Reaction(w.RemoveUser(holder.id), [Kill(local, u.nick, "Nick collision (equal TS, both lose)")],
                 DropIfLocal(holder))
      else if u.ts != 0 && holder.ts != 0 && u.ts > holder.ts then
        Reaction(w, [Kill(local, u.nick, "Nick collision (TS lost)")], [])
      else
        Reaction(w.RemoveUser(holder.id).AddUser(u), [], DropIfLocal(holder))
  }

  function RemoteNick(w: WorldState, local: string, msg: Message): Reaction {
    if |msg.params| == 1 && msg.prefix != "" then
      var u := w.FindByNick(SenderOf(msg.prefix));
      if u.None? || !u.value.IsRemote() then Quietly(w) else Quietly(w.RenameUser(u.value.id, msg.params[0]))
    else if |msg.params| < 7 then Quietly(w)
    else Announce(w, local, AnnouncedUser(msg.params))
  }

  function RemoteService(w: WorldState, peer: string, msg: Message, now: Int64): WorldState {
    if |msg.params| < 6 then w
    else
      var server := if SenderOf(msg.prefix) == "" then peer else SenderOf(msg.prefix);
      if w.FindByNick(msg.params[0]).Some? then w
      else w.AddUser(UserState(0, msg.params[0], "service", server, msg.params[5], "", true, server, now,
                               true, msg.params[3], msg.params[2]))
  }

  function RemoteQuit(w: WorldState, msg: Message): WorldState {
    var u := w.FindByNick(SenderOf(msg.prefix));
    if u.None? || !u.value.IsRemote() then w else w.RemoveUser(u.value.id)
  }

  function RemoteKill(w: WorldState, msg: Message): Reaction {
    if |msg.params| < 2 then Quietly(w)
    else
      var target := w.FindByNick(msg.params[0]);
      if target.None? then Quietly(w)
      else if target.value.IsRemote() then Quietly(w.RemoveUser(target.value.id))
      else Reaction(w, [], [target.value.nick])
  }

  // ----- channels -----

  /** An older channel timestamp is adopted, and with it every membership flag is given up. */
  function Older(ch: ChanState, ts: Int64): ChanState {
    if ch.TSIsOlder(ts) then ch.AdoptOlderTS(ts).ResetMembershipFlags() else ch
  }

  function RemoteJoin(w: WorldState, msg: Message, now: Int64): WorldState {
    var u := w.FindByNick(SenderOf(msg.prefix));
    if msg.params == [] || u.None? || !u.value.IsRemote() then w
    else
      var joined := w.JoinChannel(u.value.id, msg.params[0], now);
      var ts := if |msg.params| >= 2 then ParseInt(msg.params[1]) else None;
      if ts.None? || ts.value <= 0 || joined.FindChannel(msg.params[0]).None? then joined
      else WithChan(joined, w.Key(msg.params[0]), Older(joined.FindChannel(msg.params[0]).value, ts.value))
  }

  function RemotePart(w: WorldState, msg: Message): WorldState {
    var u := w.FindByNick(SenderOf(msg.prefix));
    if msg.params == [] || u.None? || !u.value.IsRemote() then w else w.PartChannel(u.value.id, msg.params[0])
  }

  function RemoteKick(w: WorldState, msg: Message): WorldState {
    if |msg.params| < 2 || w.FindByNick(msg.params[1]).None? then w
    else w.PartChannel(w.FindByNick(msg.params[1]).value.id, msg.params[0])
  }

  function RemoteTopic(w: WorldState, msg: Message, now: Int64): WorldState {
    if |msg.params| < 2 || w.FindChannel(msg.params[0]).None? then w
    else
      var ch := w.FindChannel(msg.params[0]).value;
      w.(chans := w.chans[w.Key(msg.params[0]) := ch.(topic := Topic(msg.params[1], msg.prefix, now))])
  }

  function RemoteMode(w: WorldState, msg: Message, now: Int64): WorldState {
    if |msg.params| < 2 || !IsStandard(msg.params[0]) || w.FindChannel(msg.params[0]).None? then w
    else
      var ch := w.FindChannel(msg.params[0]).value;
      w.(chans := w.chans[w.Key(msg.params[0]) := RemoteRun(w, ch, '+', msg.params[1], msg.params[2..], now)])
  }

  // ----- dispatch -----

  datatype Verb =
    | NickVerb | ServiceVerb | QuitVerb | JoinVerb | PartVerb | KickVerb | TopicVerb | ModeVerb | KillVerb
    | OtherVerb

  function VerbOf(command: string): Verb {
    if command == "NICK" then NickVerb
    else if command == "SERVICE" then ServiceVerb
    else if command == "QUIT" then QuitVerb
    else if command == "JOIN" then JoinVerb
    else if command == "PART" then PartVerb
    else if command == "KICK" then KickVerb
    else if command == "TOPIC" then TopicVerb
    else if command == "MODE" then ModeVerb
    else if command == "KILL" then KillVerb
    else OtherVerb
  }

  /** One inbound message on the link of node `local` to node `peer`. Commands that do not touch the
      world (and SQUIT, which is in SquitFlood) are ignored here. */
  function Handle(w: WorldState, local: string, peer: string, msg: Message, now: Int64): Reaction {
    match VerbOf(msg.command)
    case NickVerb => RemoteNick(w, local, msg)
    case ServiceVerb => Quietly(RemoteService(w, peer, msg, now))
    case QuitVerb => Quietly(RemoteQuit(w, msg))
    case JoinVerb => Quietly(RemoteJoin(w, msg, now))
    case PartVerb => Quietly(RemotePart(w, msg))
    case KickVerb => Quietly(RemoteKick(w, msg))
    case TopicVerb => Quietly(RemoteTopic(w, msg, now))
    case ModeVerb => Quietly(RemoteMode(w, msg, now))
    case KillVerb => RemoteKill(w, msg)
    case OtherVerb => Quietly(w)
  }

  // ----- the burst -----

  /** The line that introduces a local user to a peer. */
  function UserLine(u: UserState, local: string): Message {
    if u.service then
      Plain(local, "SERVICE", [u.nick, "1", if u.serviceDistribution == "" then "*" else u.serviceDistribution,
                               u.serviceType, "1", u.realname])
    else
      Plain(local, "NICK", [u.nick, "1", u.user, u.host, local, "+" + u.modes, FormatInt(u.ts), u.realname])
  }

  predicate IsLocal(w: WorldState, id: UserID) {
    id in w.users && !w.users[id].IsRemote()
  }

  function UserLinesOf(w: WorldState, local: string, id: UserID): seq<Message> {
    if IsLocal(w, id) then [UserLine(w.users[id], local)] else []
  }

  function UserLines(w: WorldState, local: string, ids: seq<UserID>): seq<Message> {
    if ids == [] then [] else UserLinesOf(w, local, ids[0]) + UserLines(w, local, ids[1..])
  }

  function JoinLine(ch: ChanState, u: UserState): Message {
    Plain(u.Hostmask(), "JOIN", [ch.name, FormatInt(ch.createdAt)])
  }

  function JoinLinesOf(w: WorldState, ch: ChanState, id: UserID): seq<Message> {
    if IsLocal(w, id) then [JoinLine(ch, w.users[id])] else []
  }

  function JoinLines(w: WorldState, ch: ChanState, ids: seq<UserID>): seq<Message> {
    if ids == [] then [] else JoinLinesOf(w, ch, ids[0]) + JoinLines(w, ch, ids[1..])
  }

  function Letter(on: bool, c: string): string {
    if on then c else ""
  }

  /** The boolean modes that are on, in the order of a mode word. */
  function Letters(m: Modes): string {
    Letter(m.noExternal, "n") + (Letter(m.topicLocked, "t") + (Letter(m.moderated, "m") + (Letter(m.inviteOnly, "i")
    + (Letter(m.private, "p") + (Letter(m.secret, "s") + (Letter(m.anonymous, "a") + Letter(m.serverReop, "r")))))))
  }

  function ModeWord(ch: ChanState): string {
    "+" + (Letters(ch.modes) + ((if ch.key != "" then "k" else "") + (if ch.limit > 0 then "l" else "")))
  }

  function ModeParams(ch: ChanState): seq<string> {
    (if ch.key != "" then [ch.key] else []) + (if ch.limit > 0 then [FormatInt(ch.limit)] else [])
  }

  function ModeLine(local: string, name: string, word: string, args: seq<string>): Message {
    Plain(local, "MODE", [name, word] + args)
  }

  function BanLines(local: string, name: string, masks: seq<string>): seq<Message> {
    if masks == [] then [] else [ModeLine(local, name, "+b", [masks[0]])] + BanLines(local, name, masks[1..])
  }

  function FlagLinesOf(w: WorldState, local: string, ch: ChanState, id: UserID): seq<Message> {
    if !IsLocal(w, id) || id !in ch.members then []
    else
      (if ch.members[id].IsOp() then [ModeLine(local, ch.name, "+o", [w.users[id].nick])] else [])
      + (if ch.members[id].IsVoice() then [ModeLine(local, ch.name, "+v", [w.users[id].nick])] else [])
  }

  function FlagLines(w: WorldState, local: string, ch: ChanState, ids: seq<UserID>): seq<Message> {
    if ids == [] then [] else FlagLinesOf(w, local, ch, ids[0]) + FlagLines(w, local, ch, ids[1..])
  }

  function TopicLines(local: string, ch: ChanState): seq<Message> {
    if ch.topic.text == "" then [] else [Plain(local, "TOPIC", [ch.name, ch.topic.text])]
  }

  /** The order in which the burst of one channel visits its members (twice) and its bans. */
  datatype ChanOrder = ChanOrder(members: seq<UserID>, bans: seq<string>, flags: seq<UserID>)

  ghost predicate OrdersChan(o: ChanOrder, ch: ChanState) {
    && Enumerates(o.members, ch.members.Keys)
    && Enumerates(o.bans, ch.lists.bans.Keys)
    && Enumerates(o.flags, ch.members.Keys)
  }

  predicate HasLocal(w: WorldState, ch: ChanState) {
    exists id :: id in ch.members && IsLocal(w, id)
  }

  /** Everything about a channel after its JOIN lines. */
  function SettingLines(w: WorldState, local: string, ch: ChanState, o: ChanOrder): seq<Message> {
    TopicLines(local, ch)
    + ([ModeLine(local, ch.name, ModeWord(ch), ModeParams(ch))]
       + (BanLines(local, ch.name, o.bans) + FlagLines(w, local, ch, o.flags)))
  }

  /** A channel without a local member is not mentioned at all. */
  function ChanLines(w: WorldState, local: string, ch: ChanState, o: ChanOrder): seq<Message> {
    JoinLines(w, ch, o.members) + (if HasLocal(w, ch) then SettingLines(w, local, ch, o) else [])
  }

  /** Map iteration visits keys in any order, so a burst is fixed by the world and the visiting orders. */
  datatype Order = Order(users: seq<UserID>, chans: seq<string>, inside: map<string, ChanOrder>)

  ghost predicate Orders(o: Order, w: WorldState) {
    && Enumerates(o.users, w.users.Keys)
    && Enumerates(o.chans, w.chans.Keys)
    && o.inside.Keys == w.chans.Keys
    && forall c :: c in w.chans ==> OrdersChan(o.inside[c], w.chans[c])
  }

  function AllChanLines(w: WorldState, local: string, chans: seq<string>, inside: map<string, ChanOrder>): seq<Message>
  {
    if chans == [] then []
    else if chans[0] in w.chans && chans[0] in inside then
      ChanLines(w, local, w.chans[chans[0]], inside[chans[0]]) + AllChanLines(w, local, chans[1..], inside)
    else AllChanLines(w, local, chans[1..], inside)
  }

  function BurstLines(w: WorldState, local: string, o: Order): seq<Message> {
    UserLines(w, local, o.users) + AllChanLines(w, local, o.chans, o.inside)
  }

  // ----- replaying a stream of messages -----

  /** Handling message number k, which arrives at time clock(k). */
  function Step(local: string, peer: string, clock: nat -> Int64): (WorldState, Message, nat) -> WorldState {
    (w: WorldState, msg: Message, k: nat) => Handle(w, local, peer, msg, clock(k)).w
  }

  function Replay(w: WorldState, local: string, peer: string, msgs: seq<Message>, clock: nat -> Int64): WorldState {
    RunAll(Step(local, peer, clock), w, msgs, 0)
  }

  /** Handling message number k neither sends anything back nor cuts a connection. */
  function Silent(local: string, peer: string, clock: nat -> Int64): (WorldState, Message, nat) -> bool {
    (w: WorldState, msg: Message, k: nat) =>
      var r := Handle(w, local, peer, msg, clock(k));
      r.sent == [] && r.drops == []
  }

  /** No message of the stream makes the node answer or cut a connection. */
  predicate Unanswered(w: WorldState, local: string, peer: string, msgs: seq<Message>, clock: nat -> Int64) {
    Throughout(Step(local, peer, clock), Silent(local, peer, clock), w, msgs, 0)
  }

  // ----- channel messages leave the user indexes alone -----

  lemma JoinKeepsUsers(w: WorldState, m: Message, now: Int64)
    ensures SameUsers(w, RemoteJoin(w, m, now))
  {
  }

  lemma PartKeepsUsers(w: WorldState, m: Message)
    ensures SameUsers(w, RemotePart(w, m)) && SameUsers(w, RemoteKick(w, m))
  {
  }

  lemma SettingsKeepUsers(w: WorldState, m: Message, now: Int64)
    ensures SameUsers(w, RemoteTopic(w, m, now)) && SameUsers(w, RemoteMode(w, m, now))
  {
  }

  /** Not NICK, SERVICE, QUIT or KILL. */
  predicate AboutChannels(m: Message) {
    VerbOf(m.command) !in {NickVerb, ServiceVerb, QuitVerb, KillVerb}
  }

  lemma ChannelVerbsKeepUsers(w: WorldState, local: string, peer: string, m: Message, now: Int64)
    requires AboutChannels(m)
    ensures var r := Handle(w, local, peer, m, now); SameUsers(w, r.w) && r.sent == [] && r.drops == []
  {
    JoinKeepsUsers(w, m, now);
    PartKeepsUsers(w, m);
    SettingsKeepUsers(w, m, now);
  }
}
