/** Who gets into a channel, with what flags, and who may speak there: the rules as an operator sets them up
    with MODE and INVITE and as a user meets them. */
module JoinRules {
  import opened Prelude
  import opened Numbers
  import opened CaseMap
  import opened State
  import opened ModeSpec
  import opened Clients
  import opened ModeMeaning
  import Glob

  // ----- who gets in -----

  /** The final name of the channel that the join is for. */
  ghost predicate JoinsAs(w: WorldState, c: Command, name: string) {
    c.Join? && w.UsersValid() && c.id in w.users && FinalName(w, c) == Some(name)
  }

  /** A join of a user who is not in the channel yet. */
  ghost predicate Knocks(w: WorldState, c: Command, name: string) {
    JoinsAs(w, c, name) && w.FindChannel(name).Some? && c.id !in w.FindChannel(name).value.members
  }

  /** Nothing stands in the way: under +i an invitation or an exception from it, the key if there is one, room
      under the limit if there is one, and no ban without an exception. */
  predicate Welcome(m: CaseMapping, ch: ChanState, u: UserState, key: string) {
    && (ch.modes.inviteOnly ==> u.id in ch.invites || MatchesAny(m, ch.lists.invexes, u.Hostmask()))
    && (ch.key != "" ==> key == ch.key)
    && (ch.limit > 0 ==> |ch.members| < ch.limit)
    && (MatchesAny(m, ch.lists.bans, u.Hostmask()) ==> MatchesAny(m, ch.lists.exceptions, u.Hostmask()))
  }

  /** The flags of someone who joins a channel that is there: none, but for the first to come back to an empty safe
      channel with +r, who is an operator. */
  function ArrivalFlags(ch: ChanState): Membership {
    Membership(ch.members == map[] && IsSafe(ch.name) && ch.modes.serverReop, false, false)
  }

  /** The invitations after a join: the user's own is used up if it was needed. */
  function InvitesLeft(m: CaseMapping, ch: ChanState, u: UserState): set<UserID> {
    if ch.modes.inviteOnly && !MatchesAny(m, ch.lists.invexes, u.Hostmask()) then ch.invites - {u.id} else ch.invites
  }

  lemma VerdictIsWelcome(m: CaseMapping, ch: ChanState, u: UserState, key: string)
    ensures JoinVerdict(m, ch, u, key) == Admitted <==> Welcome(m, ch, u, key)
    ensures AfterPolicy(m, ch, u) == ch.(invites := InvitesLeft(m, ch, u))
  {
  }

  lemma ArrivalIsEntry(w: WorldState, ch: ChanState, id: UserID, name: string, now: Int64)
    requires name != "" && w.Key(name) in w.chans && w.chans[w.Key(name)] == ch && id !in ch.members
    requires w.Key(ch.name) == w.Key(name)
    ensures w.JoinedChan(id, name, now) == ch.(members := ch.members[id := ArrivalFlags(ch)])
  {
    SafeAlike(w.mapping, ch.name, name);
    assert |ch.members| == 0 <==> ch.members == map[];
  }

  lemma SafeAlike(m: CaseMapping, a: string, b: string)
    requires Fold(m, a) == Fold(m, b)
    ensures IsSafe(a) <==> IsSafe(b)
  {
    FoldIsSameName(m, a, b);
  }

  /** A user who knocks becomes a member if and only if nothing stands in the way. A needed invitation is used up
      either way, and nothing else changes. */
  lemma JoinExactly(w: WorldState, c: Command, name: string)
    requires w.Valid() && Knocks(w, c, name)
    ensures var ch, u := w.FindChannel(name).value, w.users[c.id];
            Exec(w, c) == Changed(w, name, ch.(invites := InvitesLeft(w.mapping, ch, u),
                                               members := if Welcome(w.mapping, ch, u, c.key)
                                                          then ch.members[c.id := ArrivalFlags(ch)] else ch.members))
  {
    hide Welcome;
    var ch, u := w.FindChannel(name).value, w.users[c.id];
    VerdictIsWelcome(w.mapping, ch, u, c.key);
    var left := ch.(invites := InvitesLeft(w.mapping, ch, u));
    var mid := Changed(w, name, left);
    assert u.id == c.id;
    ArrivalIsEntry(mid, left, c.id, name, c.now);
    assert Changed(mid, name, left.(members := ch.members[c.id := ArrivalFlags(ch)]))
        == Changed(w, name, left.(members := ch.members[c.id := ArrivalFlags(ch)]));
  }

  /** By the meaning of masks, for hostmasks without a star. */
  ghost predicate WelcomeByMeaning(m: CaseMapping, ch: ChanState, u: UserState, key: string) {
    && (ch.modes.inviteOnly ==> u.id in ch.invites || CoveredBy(m, ch.lists.invexes, u.Hostmask()))
    && (ch.key != "" ==> key == ch.key)
    && (ch.limit > 0 ==> |ch.members| < ch.limit)
    && (CoveredBy(m, ch.lists.bans, u.Hostmask()) ==> CoveredBy(m, ch.lists.exceptions, u.Hostmask()))
  }

  ghost predicate IsMember(w: WorldState, name: string, id: UserID) {
    w.FindChannel(name).Some? && id in w.FindChannel(name).value.members
  }

  lemma JoinByMeaning(w: WorldState, c: Command, name: string)
    requires w.Valid() && Knocks(w, c, name) && '*' !in w.users[c.id].Hostmask()
    ensures IsMember(Exec(w, c), name, c.id)
       <==> WelcomeByMeaning(w.mapping, w.FindChannel(name).value, w.users[c.id], c.key)
  {
    hide MatchesAny, CoveredBy, UserState.Hostmask;
    var ch, u := w.FindChannel(name).value, w.users[c.id];
    JoinExactly(w, c, name);
    MatchIsCover(w.mapping, ch.lists.invexes, u.Hostmask());
    MatchIsCover(w.mapping, ch.lists.bans, u.Hostmask());
    MatchIsCover(w.mapping, ch.lists.exceptions, u.Hostmask());
  }

  /** What a refused user is told: the first of +i, +k, +l and +b that stands in the way. */
  lemma RefusalNamesFirst(m: CaseMapping, ch: ChanState, u: UserState, key: string)
    requires '*' !in u.Hostmask()
    ensures var v := JoinVerdict(m, ch, u, key);
            var invited := ch.modes.inviteOnly ==> u.id in ch.invites || CoveredBy(m, ch.lists.invexes, u.Hostmask());
            var keyed, room := ch.key == "" || key == ch.key, ch.limit <= 0 || |ch.members| < ch.limit;
            && (v == InviteOnlyRefused <==> !invited) && (v == BadKey <==> invited && !keyed)
            && (v == Full <==> invited && keyed && !room)
            && (v == Banned <==>
                  && invited && keyed && room && CoveredBy(m, ch.lists.bans, u.Hostmask())
                  && !CoveredBy(m, ch.lists.exceptions, u.Hostmask()))
  {
    hide MatchesAny, CoveredBy, UserState.Hostmask;
    MatchIsCover(m, ch.lists.invexes, u.Hostmask());
    MatchIsCover(m, ch.lists.bans, u.Hostmask());
    MatchIsCover(m, ch.lists.exceptions, u.Hostmask());
  }

  // ----- founding a channel -----

  /** A join of a channel that does not exist creates it, under +nt and otherwise bare. The founder is its only
      member, an operator of any channel but a '+' channel, and its creator on a '!' channel. */
  lemma JoinFounds(w: WorldState, c: Command, name: string)
    requires JoinsAs(w, c, name) && w.FindChannel(name).None?
    ensures name != "" && Exec(w, c).FindChannel(name).Some?
    ensures var ch := Exec(w, c).FindChannel(name).value;
            && Exec(w, c) == Changed(w, name, ch) && ch.members.Keys == {c.id} && ch.name == name
            && (ch.members[c.id].IsOp() <==> name[0] != '+') && (ch.members[c.id].creator <==> name[0] == '!')
            && !ch.members[c.id].voice
            && ch.createdAt == c.now && ch.key == "" && ch.limit == 0 && ch.topic.text == "" && ch.invites == {}
            && ch.lists == Lists(map[], map[], map[], map[])
            && ch.modes == Modes(false, false, true, false, false, true, false, false)
  {
  }

  /** The founder of a channel with modes can set them from then on. */
  lemma FounderMaySetModes(w: WorldState, c: Command, name: string, letter: char, on: bool, now: Int64)
    requires JoinsAs(w, c, name) && w.FindChannel(name).None? && letter in SWITCHES
    ensures var w' := Exec(w, c);
            && (MaySetModes(w', c.id, name) <==> name[0] != '+')
            && var after := Exec(w', Line(c.id, name, on, letter, [], now)).FindChannel(name);
               && after.Some?
               && after.value.modes == if name[0] == '+' || (letter == 'r' && name[0] != '!')
                                       then w'.FindChannel(name).value.modes
                                       else Switched(w'.FindChannel(name).value.modes, letter, on)
  {
    hide Switched;
    JoinFounds(w, c, name);
    var w' := Exec(w, c);
    if name[0] != '+' {
      SwitchLetter(w', c.id, name, on, letter, now);
    }
  }

  // ----- coming back to a safe channel -----

  /** The last member of a safe channel with +r leaves, and the channel stays: whoever joins next is welcome by the
      same rules and is its operator, though not its creator. Any other channel is gone when its last member
      leaves, and whoever joins next founds it anew. */
  lemma LastMemberLeaves(w: WorldState, id: UserID, name: string)
    requires w.Valid() && w.FindChannel(name).Some? && w.FindChannel(name).value.members.Keys == {id}
    ensures var ch, after := w.FindChannel(name).value, Exec(w, Part(id, name));
            if IsSafe(ch.name) && ch.modes.serverReop then after == Changed(w, name, ch.(members := map[]))
            else after.FindChannel(name).None?
  {
    var ch := w.FindChannel(name).value;
    SafeAlike(w.mapping, ch.name, name);
    assert (ch.members - {id}).Keys == {};
    assert ch.members - {id} == map[];
  }

  lemma ReopAfterPart(w: WorldState, id: UserID, c: Command, name: string)
    requires w.Valid() && w.FindChannel(name).Some? && w.FindChannel(name).value.members.Keys == {id}
    requires var ch := w.FindChannel(name).value; IsSafe(ch.name) && ch.modes.serverReop
    requires JoinsAs(Exec(w, Part(id, name)), c, name)
    requires Welcome(w.mapping, w.FindChannel(name).value.(members := map[]), w.users[c.id], c.key)
    ensures var end := Exec(Exec(w, Part(id, name)), c);
            IsMember(end, name, c.id) && end.FindChannel(name).value.members[c.id] == Membership(true, false, false)
  {
    hide Welcome;
    LastMemberLeaves(w, id, name);
    JoinExactly(Exec(w, Part(id, name)), c, name);
  }

  // ----- invitations -----

  /** An invitation opens a +i channel to the user once: the join uses it up, and after leaving the user needs
      another one. */
  lemma InvitationIsUsedUp(w: WorldState, c: Command, name: string)
    requires w.Valid() && Knocks(w, c, name)
    requires var ch := w.FindChannel(name).value;
             ch.modes.inviteOnly && !MatchesAny(w.mapping, ch.lists.invexes, w.users[c.id].Hostmask())
    ensures var ch' := Exec(w, c).FindChannel(name).value;
            && c.id !in ch'.invites
            && forall key :: !Welcome(w.mapping, ch'.(members := ch'.members - {c.id}), w.users[c.id], key)
  {
    hide MatchesAny;
    JoinExactly(w, c, name);
  }

  /** An INVITE is recorded if and only if the inviter is a member, an operator under +i, and the user invited is
      not a member. Then no invitation is missing. */
  lemma InviteExactly(w: WorldState, id: UserID, nick: string, name: string)
    requires w.FindChannel(name).Some? && w.FindByNick(nick).Some?
    ensures var ch, target := w.FindChannel(name).value, w.FindByNick(nick).value.id;
            Exec(w, Invite(id, nick, name))
              == if id in ch.members && target !in ch.members && (ch.modes.inviteOnly ==> ch.members[id].IsOp())
                 then Changed(w, name, ch.(invites := ch.invites + {target})) else w
  {
  }

  // ----- what list modes are for -----

  lemma NewMaskMatches(m: CaseMapping, before: Masks, after: Masks, mask: string, now: int, hostmask: string)
    requires OneMask(before, after, true, mask, now) && '*' !in hostmask && Glob.Globs(Fold(m, mask), Fold(m, hostmask))
    ensures MatchesAny(m, after, hostmask)
  {
    assert mask in after;
    MatchIsCover(m, after, hostmask);
  }

  /** The channel after an operator put a mask on one of its lists. */
  function Listed(w: WorldState, id: UserID, name: string, letter: char, mask: string, now: Int64): Option<ChanState> {
    ModeOne(w, id, name, [['+', letter], mask], now).FindChannel(name)
  }

  lemma ListedBy(w: WorldState, id: UserID, name: string, letter: char, mask: string, now: Int64)
    requires MaySetModes(w, id, name) && letter in {'b', 'e', 'I', 'q'} && mask != ""
    ensures var ch, ch' := w.FindChannel(name).value, Listed(w, id, name, letter, mask, now);
            && ch'.Some? && ch'.value == ch.(lists := ch'.value.lists)
            && var l, l' := ch.lists, ch'.value.lists;
               && (letter == 'b' ==> OneMask(l.bans, l'.bans, true, mask, now) && l'.exceptions == l.exceptions)
               && (letter == 'e' ==> OneMask(l.exceptions, l'.exceptions, true, mask, now))
               && (letter == 'I' ==> OneMask(l.invexes, l'.invexes, true, mask, now))
               && (letter == 'q' ==> OneMask(l.quiets, l'.quiets, true, mask, now))
  {
    assert [['+', letter]] + [mask] == [['+', letter], mask];
    ListLetter(w, id, name, true, letter, mask, now);
  }

  /** After +I a user whom the mask covers is not refused for want of an invitation, after +e not for a ban, and
      after +b is refused, unless excepted. After +q a user without operator flag or voice may not speak. */
  lemma ListsWork(w: WorldState, id: UserID, name: string, mask: string, now: Int64, u: UserState, key: string)
    requires MaySetModes(w, id, name) && mask != ""
    requires '*' !in u.Hostmask() && Glob.Globs(Fold(w.mapping, mask), Fold(w.mapping, u.Hostmask()))
    ensures JoinVerdict(w.mapping, Listed(w, id, name, 'I', mask, now).value, u, key) != InviteOnlyRefused
    ensures JoinVerdict(w.mapping, Listed(w, id, name, 'e', mask, now).value, u, key) != Banned
    ensures var ch := Listed(w, id, name, 'b', mask, now).value;
            JoinVerdict(w.mapping, ch, u, key) == Admitted ==> MatchesAny(w.mapping, ch.lists.exceptions, u.Hostmask())
    ensures var ch := Listed(w, id, name, 'q', mask, now).value;
            MaySpeak(w.mapping, ch, u) ==> u.id in ch.members && (ch.members[u.id].IsOp() || ch.members[u.id].voice)
  {
    hide MatchesAny, UserState.Hostmask, ModeOne, Glob.Globs;
    var l := w.FindChannel(name).value.lists;
    ListedBy(w, id, name, 'I', mask, now);
    NewMaskMatches(w.mapping, l.invexes, Listed(w, id, name, 'I', mask, now).value.lists.invexes, mask, now,
                   u.Hostmask());
    ListedBy(w, id, name, 'e', mask, now);
    NewMaskMatches(w.mapping, l.exceptions, Listed(w, id, name, 'e', mask, now).value.lists.exceptions, mask, now,
                   u.Hostmask());
    ListedBy(w, id, name, 'b', mask, now);
    NewMaskMatches(w.mapping, l.bans, Listed(w, id, name, 'b', mask, now).value.lists.bans, mask, now, u.Hostmask());
    ListedBy(w, id, name, 'q', mask, now);
    NewMaskMatches(w.mapping, l.quiets, Listed(w, id, name, 'q', mask, now).value.lists.quiets, mask, now,
                   u.Hostmask());
  }

  // ----- who may speak -----

  /** Operators and voiced members always may. Anybody else needs to be a member under +n, may not under +m, and
      may not when a quiet covers the hostmask. */
  lemma SpeakExactly(m: CaseMapping, ch: ChanState, u: UserState)
    requires '*' !in u.Hostmask()
    ensures MaySpeak(m, ch, u) <==>
              || (u.id in ch.members && (ch.members[u.id].IsOp() || ch.members[u.id].voice))
              || (&& (ch.modes.noExternal ==> u.id in ch.members) && !ch.modes.moderated
                  && !CoveredBy(m, ch.lists.quiets, u.Hostmask()))
  {
    hide MatchesAny, CoveredBy, UserState.Hostmask;
    MatchIsCover(m, ch.lists.quiets, u.Hostmask());
  }
}
