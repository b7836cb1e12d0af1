/** The state of one node as plain values, and what every state operation does to it.

    The classes in Channel.dfy and World.dfy hold the same state in mutable objects and are proved to
    do exactly what is written here; the theorems about whole runs are about these values. */
module State {
  import opened Prelude
  import opened Numbers
  import opened CaseMap

  type UserID = nat

  // ----- channel membership -----

  /** The three membership bits of a channel member. */
  datatype Membership = Membership(op: bool, voice: bool, creator: bool) {
    /** Creators of safe channels are operators without the operator bit. */
    predicate IsOp() {
      op || creator
    }

    predicate IsVoice() {
      voice
    }

    function With(flag: Flag): Membership {
      match flag
      case Op => this.(op := true)
      case Voice => this.(voice := true)
      case Creator => this.(creator := true)
    }

    /** The creator bit cannot be taken away. */
    function Without(flag: Flag): Membership {
      match flag
      case Op => this.(op := false)
      case Voice => this.(voice := false)
      case Creator => this
    }
  }

  datatype Flag = Op | Voice | Creator

  const NO_FLAGS := Membership(false, false, false)

  // ----- channels -----

  /** The boolean channel modes i, m, n, p, s, t, a and r. */
  datatype BoolMode = InviteOnly | Moderated | NoExternal | Private | Secret | TopicLocked | Anonymous | ServerReop

  datatype Modes = Modes(inviteOnly: bool, moderated: bool, noExternal: bool, private: bool,
                         secret: bool, topicLocked: bool, anonymous: bool, serverReop: bool)
  {
    predicate Get(mode: BoolMode) {
      match mode
      case InviteOnly => inviteOnly
      case Moderated => moderated
      case NoExternal => noExternal
      case Private => private
      case Secret => secret
      case TopicLocked => topicLocked
      case Anonymous => anonymous
      case ServerReop => serverReop
    }

    function Set(mode: BoolMode, on: bool): Modes {
      match mode
      case InviteOnly => this.(inviteOnly := on)
      case Moderated => this.(moderated := on)
      case NoExternal => this.(noExternal := on)
      case Private => this.(private := on)
      case Secret => this.(secret := on)
      case TopicLocked => this.(topicLocked := on)
      case Anonymous => this.(anonymous := on)
      case ServerReop => this.(serverReop := on)
    }
  }

  const NO_MODES := Modes(false, false, false, false, false, false, false, false)

  /** The modes every new channel starts with: +nt. */
  const DEFAULT_MODES := NO_MODES.(noExternal := true, topicLocked := true)

  /** Mask lists map each mask to the time (unix nanoseconds) at which it was set. */
  type Masks = map<string, int>

  datatype MaskKind = Ban | Exception | Invex | Quiet

  datatype Lists = Lists(bans: Masks, exceptions: Masks, invexes: Masks, quiets: Masks) {
    function Get(kind: MaskKind): Masks {
      match kind
      case Ban => bans
      case Exception => exceptions
      case Invex => invexes
      case Quiet => quiets
    }

    function Put(kind: MaskKind, masks: Masks): Lists {
      match kind
      case Ban => this.(bans := masks)
      case Exception => this.(exceptions := masks)
      case Invex => this.(invexes := masks)
      case Quiet => this.(quiets := masks)
    }
  }

  datatype Topic = Topic(text: string, setBy: string, setAt: int)

  datatype ChanState = ChanState(
    name: string, createdAt: Int64, topic: Topic, key: string, limit: Int64, modes: Modes,
    members: map<UserID, Membership>, lists: Lists, invites: set<UserID>)
  {
    function AddMembership(id: UserID, flag: Flag): ChanState {
      if id in members then this.(members := members[id := members[id].With(flag)]) else this
    }

    function RemoveMembership(id: UserID, flag: Flag): ChanState {
      if id in members then this.(members := members[id := members[id].Without(flag)]) else this
    }

    function AdoptOlderTS(ts: Int64): ChanState {
      if 0 < ts < createdAt then this.(createdAt := ts) else this
    }

    predicate TSIsOlder(ts: int) {
      0 < ts < createdAt
    }

    function ResetMembershipFlags(): ChanState {
      this.(members := map id | id in members :: NO_FLAGS)
    }

    /** The flags the first member of a channel gets, by the channel's prefix. */
    function FounderFlags(): Membership {
      if name == "" || name[0] == '+' then NO_FLAGS
      else if name[0] == '!' then NO_FLAGS.(creator := true)
      else NO_FLAGS.(op := true)
    }

    function AddMember(id: UserID, isFirst: bool): ChanState {
      if id in members then this
      else this.(members := members[id := if isFirst then FounderFlags() else NO_FLAGS])
    }

    function RemoveMember(id: UserID): ChanState {
      this.(members := members - {id})
    }
  }

  /** Adding to a mask list keeps the time of a mask that is already there. */
  function AddMask(masks: Masks, mask: string, at: int): Masks {
    if mask in masks then masks else masks[mask := at]
  }

  function NewChan(name: string, now: Int64): ChanState {
    ChanState(name, now, Topic("", "", 0), "", 0, DEFAULT_MODES, map[], Lists(map[], map[], map[], map[]), {})
  }

  /** '#' and '&' channels, the only ones whose modes are replicated between nodes. */
  predicate IsStandard(name: string) {
    name != "" && (name[0] == '#' || name[0] == '&')
  }

  predicate IsSafe(name: string) {
    name != "" && name[0] == '!'
  }

  predicate IsModeless(name: string) {
    name != "" && name[0] == '+'
  }

  /** Adding a member. An empty safe channel with +r makes whoever comes back an operator. */
  function Entered(ch: ChanState, id: UserID, created: bool, safe: bool): ChanState {
    var resurrected := !created && |ch.members| == 0 && safe && ch.modes.serverReop;
    var joined := ch.AddMember(id, created);
    if id !in ch.members && resurrected && !joined.members[id].IsOp() then joined.AddMembership(id, Op) else joined
  }

  // ----- users -----

  /** `homeServer` is empty for a local user. `ts` decides nick collisions. */
  datatype UserState = UserState(
    id: UserID, nick: string, user: string, host: string, realname: string, modes: string,
    registered: bool, homeServer: string, ts: Int64,
    service: bool, serviceType: string, serviceDistribution: string)
  {
    predicate IsRemote() {
      homeServer != ""
    }

    function Hostmask(): string {
      nick + "!" + ((if user == "" then nick else user) + "@" + (if host == "" then "unknown" else host))
    }
  }

  // ----- the world -----

  datatype WorldState = WorldState(
    mapping: CaseMapping,
    users: map<UserID, UserState>,
    nicks: map<string, UserID>,
    chans: map<string, ChanState>,
    lastId: UserID)
  {
    function Key(name: string): string {
      Fold(mapping, name)
    }

    /** The two user indexes hold the same users: each under its own ID, and under the fold of its
        nick and nowhere else. */
    ghost predicate UsersValid() {
      && (forall id :: id in users ==> users[id].id == id && 0 < id <= lastId && users[id].nick != "")
      && (forall id :: id in users ==> Key(users[id].nick) in nicks && nicks[Key(users[id].nick)] == id)
      && (forall k :: k in nicks ==> nicks[k] in users && Key(users[nicks[k]].nick) == k)
    }

    /** Each channel is filed under the fold of its name. */
    ghost predicate Valid() {
      UsersValid() && forall c :: c in chans ==> Key(chans[c].name) == c
    }

    function FindByNick(nick: string): Option<UserState>
    {
      if nick != "" && Key(nick) in nicks && nicks[Key(nick)] in users then Some(users[nicks[Key(nick)]]) else None
    }

    function FindChannel(name: string): Option<ChanState> {
      if name != "" && Key(name) in chans then Some(chans[Key(name)]) else None
    }

    /** AddUser refuses an empty nick and a nick whose fold is taken; otherwise the user gets a new ID. */
    predicate CanAdd(u: UserState) {
      u.nick != "" && Key(u.nick) !in nicks
    }

    function AddUser(u: UserState): WorldState {
      if !CanAdd(u) then this
      else
        var id := lastId + 1;
        this.(users := users[id := u.(id := id)], nicks := nicks[Key(u.nick) := id], lastId := id)
    }

    function RemoveUser(id: UserID): WorldState {
      if id !in users then this
      else this.(users := users - {id}, nicks := nicks - {Key(users[id].nick)})
    }

    predicate CanRename(id: UserID, newNick: string) {
      && newNick != ""
      && id in users
      && (Key(newNick) == Key(users[id].nick) || Key(newNick) !in nicks)
    }

    function RenameUser(id: UserID, newNick: string): WorldState {
      if !CanRename(id, newNick) then this
      else
        this.(users := users[id := users[id].(nick := newNick)],
              nicks := (nicks - {Key(users[id].nick)})[Key(newNick) := id])
    }

    function EnsureChannel(name: string, now: Int64): WorldState {
      if Key(name) in chans then this else this.(chans := chans[Key(name) := NewChan(name, now)])
    }

    /** The channel under a name once a user has joined it. */
    function JoinedChan(id: UserID, name: string, now: Int64): ChanState {
      var created := Key(name) !in chans;
      Entered(if created then NewChan(name, now) else chans[Key(name)], id, created, IsSafe(name))
    }

    function JoinChannel(id: UserID, name: string, now: Int64): WorldState {
      if id !in users then this
      else this.(chans := chans[Key(name) := JoinedChan(id, name, now)])
    }

    /** Dropping a member. A channel left empty goes away, except a safe one with +r. */
    function PartChannel(id: UserID, name: string): WorldState {
      if FindChannel(name).None? || id !in chans[Key(name)].members then this
      else
        var ch := chans[Key(name)].RemoveMember(id);
        if |ch.members| == 0 && !(IsSafe(name) && ch.modes.serverReop) then this.(chans := chans - {Key(name)})
        else this.(chans := chans[Key(name) := ch])
    }

    /** A channel outlives the departure of `id`. */
    predicate Outlives(ch: ChanState, id: UserID) {
      id !in ch.members || |ch.members - {id}| > 0 || (IsSafe(ch.name) && ch.modes.serverReop)
    }

    /** The user has left every channel; the channels left empty are gone, except safe ones with +r. */
    function PartAll(id: UserID): WorldState {
      this.(chans := map c | c in chans && Outlives(chans[c], id) :: chans[c].RemoveMember(id))
    }

    /** What closing a client connection does to the world. */
    function Quit(id: UserID): WorldState {
      PartAll(id).RemoveUser(id)
    }

    /** The channels a user is a member of, by key. */
    function ChannelsOf(id: UserID): set<string> {
      set c | c in chans && id in chans[c].members
    }
  }

  function WithChan(w: WorldState, c: string, ch: ChanState): WorldState {
    w.(chans := w.chans[c := ch])
  }

  function NewWorld(mapping: CaseMapping): WorldState {
    WorldState(mapping, map[], map[], map[], 0)
  }

  // ----- the indexes stay in agreement -----

  ghost predicate SameUsers(w: WorldState, w': WorldState) {
    w'.users == w.users && w'.nicks == w.nicks && w'.lastId == w.lastId && w'.mapping == w.mapping
  }

  /** The user indexes do not depend on the channels. */
  lemma SameUsersValid(w: WorldState, w': WorldState)
    requires w.UsersValid() && SameUsers(w, w')
    ensures w'.UsersValid()
  {
  }

  lemma AddUserKeeps(w: WorldState, u: UserState)
    requires w.UsersValid()
    ensures w.AddUser(u).UsersValid()
    ensures w.CanAdd(u) ==> w.lastId + 1 !in w.users
  {
  }

  lemma RemoveUserKeeps(w: WorldState, id: UserID)
    requires w.UsersValid()
    ensures w.RemoveUser(id).UsersValid()
  {
  }

  lemma RenameUserKeeps(w: WorldState, id: UserID, newNick: string)
    requires w.UsersValid()
    ensures w.RenameUser(id, newNick).UsersValid()
  {
  }

  /** FindByNick is the linear search for a user whose nick is equal under the case mapping. */
  lemma FindByNickIsSearch(w: WorldState, nick: string)
    requires w.Valid()
    ensures w.FindByNick(nick).Some? ==>
              w.FindByNick(nick).value in w.users.Values
                && Fold(w.mapping, w.FindByNick(nick).value.nick) == Fold(w.mapping, nick)
    ensures w.FindByNick(nick).None? ==>
              forall id :: id in w.users ==> Fold(w.mapping, w.users[id].nick) != Fold(w.mapping, nick)
  {
    if w.FindByNick(nick).Some? {
      assert w.nicks[w.Key(nick)] in w.users;
    } else {
      forall id | id in w.users ensures Fold(w.mapping, w.users[id].nick) != Fold(w.mapping, nick) {
        assert w.Key(w.users[id].nick) in w.nicks;
        assert |Fold(w.mapping, w.users[id].nick)| > 0;
      }
    }
  }

  /** A nick that is not empty is taken if and only if a user has it up to case, and then that user is found. */
  lemma NickTakenUpToCase(w: WorldState, nick: string)
    requires w.UsersValid() && nick != ""
    ensures w.FindByNick(nick).Some? <==> exists id :: id in w.users && SameName(w.mapping, w.users[id].nick, nick)
    ensures forall id :: id in w.users && SameName(w.mapping, w.users[id].nick, nick) ==>
              w.FindByNick(nick) == Some(w.users[id])
  {
    forall id | id in w.users
      ensures SameName(w.mapping, w.users[id].nick, nick) <==> w.FindByNick(nick) == Some(w.users[id])
    {
      FoldIsSameName(w.mapping, w.users[id].nick, nick);
      assert w.nicks[w.Key(w.users[id].nick)] == id;
    }
  }
}
