/** What the commands of local clients do to the world: registration, NICK, JOIN, PART, KICK, MODE,
    TOPIC, INVITE and the closing of a connection. */
module Clients {
  import opened Prelude
  import opened Numbers
  import opened CaseMap
  import opened State
  import opened ModeSpec
  import Glob

  // ----- masks -----

  /** Some folded mask of the list globs the folded hostmask. */
  predicate MatchesAny(m: CaseMapping, masks: Masks, hostmask: string) {
    exists mask :: mask in masks && Glob.Matches(Fold(m, mask), Fold(m, hostmask))
  }

  /** The same by the meaning of patterns instead of by the matching loop. */
  ghost predicate CoveredBy(m: CaseMapping, masks: Masks, hostmask: string) {
    exists mask :: mask in masks && Glob.Globs(Fold(m, mask), Fold(m, hostmask))
  }

  lemma MatchIsCover(m: CaseMapping, masks: Masks, hostmask: string)
    ensures MatchesAny(m, masks, hostmask) ==> CoveredBy(m, masks, hostmask)
    ensures '*' !in hostmask ==> (MatchesAny(m, masks, hostmask) <==> CoveredBy(m, masks, hostmask))
  {
    var subject := Fold(m, hostmask);
    assert '*' !in hostmask ==> '*' !in subject by {
      forall i | 0 <= i < |hostmask| ensures hostmask[i] != '*' ==> subject[i] != '*' {
      }
    }
    if MatchesAny(m, masks, hostmask) {
      var mask :| mask in masks && Glob.Matches(Fold(m, mask), subject);
      Glob.Correctness(Fold(m, mask), subject);
    }
    if '*' !in hostmask && CoveredBy(m, masks, hostmask) {
      var mask :| mask in masks && Glob.Globs(Fold(m, mask), subject);
      Glob.Correctness(Fold(m, mask), subject);
    }
  }

  // ----- the join policy -----

  datatype Verdict = Admitted | InviteOnlyRefused | BadKey | Full | Banned

  predicate NeedsInvite(m: CaseMapping, ch: ChanState, u: UserState) {
    ch.modes.inviteOnly && !MatchesAny(m, ch.lists.invexes, u.Hostmask())
  }

  /** checkJoinPolicy: the first of +i, +k, +l and +b that stands in the way. */
  function JoinVerdict(m: CaseMapping, ch: ChanState, u: UserState, key: string): Verdict {
    if NeedsInvite(m, ch, u) && u.id !in ch.invites then InviteOnlyRefused
    else if ch.key != "" && ch.key != key then BadKey
    else if ch.limit > 0 && |ch.members| >= ch.limit then Full
    else if MatchesAny(m, ch.lists.bans, u.Hostmask()) && !MatchesAny(m, ch.lists.exceptions, u.Hostmask()) then Banned
    else Admitted
  }

  /** An invitation that was needed is used up by the attempt, whatever the verdict. */
  function AfterPolicy(m: CaseMapping, ch: ChanState, u: UserState): ChanState {
    if NeedsInvite(m, ch, u) then ch.(invites := ch.invites - {u.id}) else ch
  }

  /** Past invitation, key and limit, a user with a '*'-free hostmask is turned away exactly when some
      ban covers it and no exception does. */
  lemma BanVerdict(m: CaseMapping, ch: ChanState, u: UserState, key: string)
    requires '*' !in u.Hostmask()
    requires JoinVerdict(m, ch, u, key) in {Banned, Admitted}
    ensures JoinVerdict(m, ch, u, key) == Banned <==>
              CoveredBy(m, ch.lists.bans, u.Hostmask()) && !CoveredBy(m, ch.lists.exceptions, u.Hostmask())
  {
    MatchIsCover(m, ch.lists.bans, u.Hostmask());
    MatchIsCover(m, ch.lists.exceptions, u.Hostmask());
  }

  // ----- who may speak -----

  /** The checks on a message to a channel: +n, +m and the quiets, in this order. Operators and voiced members
      are above the last two. */
  predicate MaySpeak(m: CaseMapping, ch: ChanState, u: UserState) {
    var member := u.id in ch.members;
    var above := member && (ch.members[u.id].IsOp() || ch.members[u.id].IsVoice());
    if ch.modes.noExternal && !member then false
    else if ch.modes.moderated && !above then false
    else above || !MatchesAny(m, ch.lists.quiets, u.Hostmask())
  }

  // ----- channel names -----

  predicate ValidNameChar(c: char) {
    c !in {' ', ',', '\U{0007}', '\r', '\n', '\0'}
  }

  predicate ValidChannelName(s: string, maxLen: int) {
    var limit := if maxLen <= 0 then 50 else maxLen;
    && 2 <= |s| <= limit && s[0] in {'#', '&', '+', '!'}
    && forall i :: 1 <= i < |s| ==> ValidNameChar(s[i])
  }

  const SAFE_ID_LEN := 5

  predicate IsSafeID(s: string) {
    |s| == SAFE_ID_LEN && forall i :: 0 <= i < |s| ==> 'A' <= s[i] <= 'Z' || '0' <= s[i] <= '9'
  }

  /** "!!short" makes a new name from a fresh ID, a name that already has an ID stands for itself, and
      "!short" is any existing safe channel with that suffix. */
  ghost predicate ResolvesTo(w: WorldState, name: string, freshId: string, resolved: string)
    requires |name| >= 2
  {
    if name[1] == '!' then name[2..] != "" && IsSafeID(freshId) && resolved == "!" + freshId + name[2..]
    else
      var rest := name[1..];
      if |rest| > SAFE_ID_LEN && IsSafeID(rest[..SAFE_ID_LEN]) then resolved == name
      else exists c :: c in w.chans && w.chans[c].name == resolved && IsSafe(resolved)
                       && |resolved| > 1 + SAFE_ID_LEN && resolved[1 + SAFE_ID_LEN..] == rest
  }

  // ----- commands -----

  /** A command of the client with the given user ID. `resolved` and `freshId` say how a safe channel
      name was resolved. */
  datatype Command =
    | Register(u: UserState)
    | Nick(id: UserID, nick: string)
    | Join(id: UserID, name: string, key: string, freshId: string, resolved: string, maxLen: int, now: Int64)
    | Part(id: UserID, name: string)
    | Kick(id: UserID, name: string, target: string)
    | Mode(id: UserID, name: string, params: seq<string>, now: Int64)
    | SetTopic(id: UserID, name: string, text: string, now: Int64)
    | Invite(id: UserID, target: string, name: string)
    | Close(id: UserID)

  predicate IsMemberOp(ch: ChanState, id: UserID) {
    id in ch.members && ch.members[id].IsOp()
  }

  /** Joining a channel that exists: policy first. */
  function Admit(w: WorldState, ch: ChanState, u: UserState, name: string, key: string, now: Int64): WorldState {
    var after := WithChan(w, w.Key(name), AfterPolicy(w.mapping, ch, u));
    if JoinVerdict(w.mapping, ch, u, key) != Admitted then after else after.JoinChannel(u.id, name, now)
  }

  /** A join under its final name. */
  function JoinOne(w: WorldState, id: UserID, name: string, key: string, now: Int64): WorldState
    requires id in w.users
  {
    if w.FindChannel(name).None? then w.JoinChannel(id, name, now)
    else Admit(w, w.FindChannel(name).value, w.users[id], name, key, now)
  }

  ghost function FinalName(w: WorldState, c: Command): Option<string>
    requires c.Join?
  {
    if !ValidChannelName(c.name, c.maxLen) then None
    else if !IsSafe(c.name) then Some(c.name)
    else if ResolvesTo(w, c.name, c.freshId, c.resolved) then Some(c.resolved)
    else None
  }

  function PartOne(w: WorldState, id: UserID, name: string): WorldState {
    if w.FindChannel(name).None? || id !in w.FindChannel(name).value.members then w else w.PartChannel(id, name)
  }

  function Kicked(w: WorldState, ch: ChanState, target: Option<UserState>): WorldState {
    if target.None? || target.value.id !in ch.members then w else w.PartChannel(target.value.id, ch.name)
  }

  function KickOne(w: WorldState, id: UserID, name: string, targetNick: string): WorldState {
    if w.FindChannel(name).None? || !IsMemberOp(w.FindChannel(name).value, id) then w
    else Kicked(w, w.FindChannel(name).value, w.FindByNick(targetNick))
  }

  function ModeOne(w: WorldState, id: UserID, name: string, params: seq<string>, now: int): WorldState {
    if w.FindChannel(name).None? || params == [] then w
    else
      var ch := w.FindChannel(name).value;
      if IsModeless(ch.name) || !IsMemberOp(ch, id) then w
      else WithChan(w, w.Key(name), LocalRun(w, ch, '+', params[0], params[1..], now).ch)
  }

  function TopicOne(w: WorldState, id: UserID, name: string, text: string, now: int): WorldState {
    if w.FindChannel(name).None? || id !in w.FindChannel(name).value.members || id !in w.users then w
    else
      var ch := w.FindChannel(name).value;
      if ch.modes.topicLocked && !IsMemberOp(ch, id) then w
      else WithChan(w, w.Key(name), ch.(topic := Topic(text, w.users[id].Hostmask(), now)))
  }

  function Invited(ch: ChanState, id: UserID): ChanState {
    ch.(invites := ch.invites + {id})
  }

  function InvitedBy(w: WorldState, id: UserID, target: UserID, name: string): WorldState {
    if w.FindChannel(name).None? then w
    else
      var ch := w.FindChannel(name).value;
      if id !in ch.members || target in ch.members || (ch.modes.inviteOnly && !IsMemberOp(ch, id)) then w
      else WithChan(w, w.Key(name), Invited(ch, target))
  }

  function InviteOne(w: WorldState, id: UserID, targetNick: string, name: string): WorldState {
    if w.FindByNick(targetNick).None? then w else InvitedBy(w, id, w.FindByNick(targetNick).value.id, name)
  }

  /** Commands of a user who is not (or no longer) in the world do nothing. */
  ghost function Exec(w: WorldState, c: Command): WorldState {
    match c
    case Register(u) => w.AddUser(u)
    case Nick(id, nick) => w.RenameUser(id, nick)
    case Join(id, _, key, _, _, _, now) =>
      if id !in w.users || FinalName(w, c).None? then w else JoinOne(w, id, FinalName(w, c).value, key, now)
    case Part(id, name) => PartOne(w, id, name)
    case Kick(id, name, target) => KickOne(w, id, name, target)
    case Mode(id, name, params, now) => ModeOne(w, id, name, params, now)
    case SetTopic(id, name, text, now) => TopicOne(w, id, name, text, now)
    case Invite(id, target, name) => InviteOne(w, id, target, name)
    case Close(id) => if id in w.users then w.Quit(id) else w
  }
}
