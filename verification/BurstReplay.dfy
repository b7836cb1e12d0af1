/** Burst faithfulness, assembled: one channel, all channels, the whole burst. */
module BurstReplay {
  import opened Prelude
  import opened Numbers
  import opened Message
  import opened State
  import opened ModeSpec
  import opened FedSpec
  import opened BurstChannels

  /** Every clock reading is later than the timestamp. */
  ghost predicate Later(clock: nat -> Int64, ts: Int64) {
    forall i: nat :: ts < clock(i)
  }

  // ----- what the receiving node's handlers do with the lines of a channel -----

  predicate Known(w: WorldState, u: UserState) {
    var v := w.FindByNick(u.nick);
    '!' !in u.nick && v.Some? && v.value.IsRemote() && v.value.id in w.users
  }

  ghost predicate HandlesJoins(step: Stepper, clock: nat -> Int64) {
    forall w: WorldState, ch: ChanState, u: UserState, ids: set<UserID>, k: nat ::
      Known(w, u) && ch.name != "" && w.Key(ch.name) !in w.chans && 0 < ch.createdAt < clock(k) ==>
      step(WithJoined(w, ch.name, ch.createdAt, ids), JoinLine(ch, u), k)
        == WithJoined(w, ch.name, ch.createdAt, ids + {w.FindByNick(u.nick).value.id})
  }

  ghost predicate HandlesTopics(step: Stepper, server: string, clock: nat -> Int64) {
    forall w: WorldState, ch: ChanState, name: string, text: string, k: nat :: Names(w, name, ch) ==>
      step(Put(w, ch), Plain(server, "TOPIC", [name, text]), k) == Put(w, ch.(topic := Topic(text, server, clock(k))))
  }

  ghost predicate HandlesModes(step: Stepper, server: string, clock: nat -> Int64) {
    forall w: WorldState, ch: ChanState, name: string, word: string, args: seq<string>, k: nat
      {:trigger step(Put(w, ch), ModeLine(server, name, word, args), k)} :: Names(w, name, ch) ==>
      step(Put(w, ch), ModeLine(server, name, word, args), k)
        == if IsStandard(name) then Put(w, RemoteRun(Put(w, ch), ch, '+', word, args, clock(k))) else Put(w, ch)
  }

  lemma StepHandlesChannels(local: string, peer: string, server: string, clock: nat -> Int64)
    ensures HandlesJoins(Step(local, peer, clock), clock)
    ensures HandlesTopics(Step(local, peer, clock), server, clock)
    ensures HandlesModes(Step(local, peer, clock), server, clock)
  {
    forall w: WorldState, ch: ChanState, u: UserState, ids: set<UserID>, k: nat
      | Known(w, u) && ch.name != "" && w.Key(ch.name) !in w.chans && 0 < ch.createdAt < clock(k)
      ensures Step(local, peer, clock)(WithJoined(w, ch.name, ch.createdAt, ids), JoinLine(ch, u), k)
           == WithJoined(w, ch.name, ch.createdAt, ids + {w.FindByNick(u.nick).value.id})
    {
      JoinLineEffect(w, local, peer, ch, u, ids, clock(k));
    }
    forall w: WorldState, ch: ChanState, name: string, text: string, k: nat | Names(w, name, ch)
      ensures Step(local, peer, clock)(Put(w, ch), Plain(server, "TOPIC", [name, text]), k)
           == Put(w, ch.(topic := Topic(text, server, clock(k))))
    {
      TopicLineEffect(w, local, peer, ch, name, server, text, clock(k));
    }
    forall w: WorldState, ch: ChanState, name: string, word: string, args: seq<string>, k: nat | Names(w, name, ch)
      ensures Step(local, peer, clock)(Put(w, ch), ModeLine(server, name, word, args), k)
           == if IsStandard(name) then Put(w, RemoteRun(Put(w, ch), ch, '+', word, args, clock(k))) else Put(w, ch)
    {
      ModeLineEffect(w, local, peer, ch, name, server, word, args, clock(k));
    }
  }

  // ----- the copies of the sender's users -----

  ghost predicate Injective(cid: map<UserID, UserID>) {
    forall x, y :: x in cid && y in cid && cid[x] == cid[y] ==> x == y
  }

  /** The sender's local users have arrived: `cid` maps each of them to the receiving node's ID for the
      holder of the same nick. */
  ghost predicate Linked(a: WorldState, w: WorldState, cid: map<UserID, UserID>) {
    && (forall id :: id in cid <==> IsLocal(a, id))
    && Injective(cid)
    && (forall id {:trigger Known(w, a.users[id])} :: id in cid ==>
          Known(w, a.users[id]) && w.FindByNick(a.users[id].nick).value.id == cid[id])
  }

  function Copies(cid: map<UserID, UserID>, ids: seq<UserID>): set<UserID> {
    set id | id in ids && id in cid :: cid[id]
  }

  lemma CopiesStep(cid: map<UserID, UserID>, id: UserID, rest: seq<UserID>)
    ensures Copies(cid, [id] + rest) == (if id in cid then {cid[id]} else {}) + Copies(cid, rest)
  {
  }

  // ----- one channel: joins -----

  lemma OneJoins(a: WorldState, ch: ChanState, cid: map<UserID, UserID>, id: UserID, w: WorldState, done: set<UserID>,
                 step: Stepper, clock: nat -> Int64, k: nat)
    requires Linked(a, w, cid) && HandlesJoins(step, clock)
    requires ch.name != "" && w.Key(ch.name) !in w.chans && 0 < ch.createdAt && Later(clock, ch.createdAt)
    ensures RunAll(step, WithJoined(w, ch.name, ch.createdAt, done), JoinLinesOf(a, ch, id), k)
         == WithJoined(w, ch.name, ch.createdAt, done + Copies(cid, [id]))
  {
    var before := WithJoined(w, ch.name, ch.createdAt, done);
    if id in cid {
      assert Known(w, a.users[id]) && ch.createdAt < clock(k);
      assert Copies(cid, [id]) == {cid[id]};
      RunOne(step, before, JoinLine(ch, a.users[id]), k);
    } else {
      assert done + Copies(cid, [id]) == done;
    }
  }

  lemma {:induction false} JoinsArrive(a: WorldState, ch: ChanState, cid: map<UserID, UserID>, ids: seq<UserID>,
                                       w: WorldState, done: set<UserID>,
                                       step: Stepper, clock: nat -> Int64, k: nat)
    requires Linked(a, w, cid) && HandlesJoins(step, clock)
    requires ch.name != "" && w.Key(ch.name) !in w.chans && 0 < ch.createdAt && Later(clock, ch.createdAt)
    ensures RunAll(step, WithJoined(w, ch.name, ch.createdAt, done), JoinLines(a, ch, ids), k)
         == WithJoined(w, ch.name, ch.createdAt, done + Copies(cid, ids))
    decreases |ids|
  {
    if ids == [] {
      assert done + Copies(cid, ids) == done;
    } else {
      var id, rest := ids[0], ids[1..];
      var first, more := JoinLinesOf(a, ch, id), JoinLines(a, ch, rest);
      var done' := done + Copies(cid, [id]);
      assert ids == [id] + rest;
      assert done + Copies(cid, ids) == done' + Copies(cid, rest);
      OneJoins(a, ch, cid, id, w, done, step, clock, k);
      JoinsArrive(a, ch, cid, rest, w, done', step, clock, k + |first|);
      RunThen(step, WithJoined(w, ch.name, ch.createdAt, done), WithJoined(w, ch.name, ch.createdAt, done'),
              WithJoined(w, ch.name, ch.createdAt, done' + Copies(cid, rest)), first, more, k);
    }
  }

  // ----- one channel: bans -----

  /** Only the ban list differs, and it differs by these masks. */
  ghost predicate GainedBans(ch: ChanState, after: ChanState, masks: seq<string>) {
    && after == ch.(lists := ch.lists.(bans := after.lists.bans))
    && after.lists.bans.Keys == ch.lists.bans.Keys + set m | m in masks
  }

  lemma OneBan(w: WorldState, ch: ChanState, mask: string, now: int)
    requires mask != ""
    ensures RemoteRun(Put(w, ch), ch, '+', "+b", [mask], now) == ChangeMask(ch, true, Ban, mask, now)
    ensures GainedBans(ch, ChangeMask(ch, true, Ban, mask, now), [mask])
  {
    OneModeRun(Put(w, ch), ch, 'b', mask, now);
  }

  lemma BanStep(w: WorldState, ch: ChanState, server: string, name: string, mask: string, step: Stepper,
                clock: nat -> Int64, k: nat) returns (after: ChanState)
    requires HandlesModes(step, server, clock) && IsStandard(name) && Names(w, name, ch) && mask != ""
    ensures step(Put(w, ch), ModeLine(server, name, "+b", [mask]), k) == Put(w, after)
    ensures GainedBans(ch, after, [mask])
  {
    OneBan(w, ch, mask, clock(k));
    after := ChangeMask(ch, true, Ban, mask, clock(k));
  }

  lemma GainedNoBans(ch: ChanState)
    ensures GainedBans(ch, ch, [])
  {
    var none: seq<string> := [];
    assert (set m | m in none) == {};
  }

  lemma GainedBansCompose(ch: ChanState, mid: ChanState, after: ChanState, masks: seq<string>)
    requires masks != [] && GainedBans(ch, mid, [masks[0]]) && GainedBans(mid, after, masks[1..])
    ensures GainedBans(ch, after, masks)
  {
    assert masks == [masks[0]] + masks[1..];
    assert (set m | m in masks) == (set m | m in [masks[0]]) + (set m | m in masks[1..]);
  }

  lemma {:induction false} BansArrive(w: WorldState, ch: ChanState, server: string, name: string, masks: seq<string>,
                                      step: Stepper, clock: nat -> Int64, k: nat) returns (after: ChanState)
    requires HandlesModes(step, server, clock) && IsStandard(name) && Names(w, name, ch) && "" !in masks
    ensures RunAll(step, Put(w, ch), BanLines(server, name, masks), k) == Put(w, after)
    ensures GainedBans(ch, after, masks)
    decreases |masks|
  {
    if masks == [] {
      after := ch;
      GainedNoBans(ch);
    } else {
      var mid := BanStep(w, ch, server, name, masks[0], step, clock, k);
      after := BansArrive(w, mid, server, name, masks[1..], step, clock, k + 1);
      var line := ModeLine(server, name, "+b", [masks[0]]);
      RunOne(step, Put(w, ch), line, k);
      RunThen(step, Put(w, ch), Put(w, mid), Put(w, after), [line], BanLines(server, name, masks[1..]), k);
      GainedBansCompose(ch, mid, after, masks);
    }
  }

  // ----- one channel: operator and voice flags -----

  /** The creator of a safe channel counts as an operator. */
  function ReplicaFlags(m: Membership): Membership {
    Membership(m.IsOp(), m.voice, false)
  }

  lemma OneFlag(w: WorldState, ch: ChanState, mc: char, flag: Flag, nick: string, now: int)
    requires KindOf(mc) == FlagMode(flag) && !IsSign(mc) && w.FindByNick(nick).Some?
    ensures RemoteRun(Put(w, ch), ch, '+', ['+', mc], [nick], now)
            == ch.AddMembership(w.FindByNick(nick).value.id, flag)
  {
    OneModeRun(Put(w, ch), ch, mc, nick, now);
    PutFinds(w, ch, nick);
  }

  lemma FlagStep(w: WorldState, ch: ChanState, server: string, name: string, mc: char, flag: Flag, nick: string,
                 step: Stepper, clock: nat -> Int64, k: nat)
    requires HandlesModes(step, server, clock) && IsStandard(name) && Names(w, name, ch)
    requires KindOf(mc) == FlagMode(flag) && !IsSign(mc) && w.FindByNick(nick).Some?
    ensures step(Put(w, ch), ModeLine(server, name, ['+', mc], [nick]), k)
         == Put(w, ch.AddMembership(w.FindByNick(nick).value.id, flag))
  {
    OneFlag(w, ch, mc, flag, nick, clock(k));
  }

  function WithFlags(ch: ChanState, id: UserID, m: Membership): ChanState {
    ch.(members := ch.members[id := m])
  }

  function OptionalLine(has: bool, line: Message): seq<Message> {
    if has then [line] else []
  }

  lemma OptionalFlag(w: WorldState, ch: ChanState, server: string, name: string, mc: char, flag: Flag, nick: string,
                     has: bool, step: Stepper, clock: nat -> Int64, k: nat) returns (after: ChanState)
    requires HandlesModes(step, server, clock) && IsStandard(name) && Names(w, name, ch)
    requires KindOf(mc) == FlagMode(flag) && !IsSign(mc) && w.FindByNick(nick).Some?
    ensures after == if has then ch.AddMembership(w.FindByNick(nick).value.id, flag) else ch
    ensures RunAll(step, Put(w, ch), OptionalLine(has, ModeLine(server, name, ['+', mc], [nick])), k)
            == Put(w, after)
  {
    after := ch;
    if has {
      after := ch.AddMembership(w.FindByNick(nick).value.id, flag);
      FlagStep(w, ch, server, name, mc, flag, nick, step, clock, k);
      RunOne(step, Put(w, ch), ModeLine(server, name, ['+', mc], [nick]), k);
    }
  }

  lemma TwoFlags(w: WorldState, ch: ChanState, server: string, name: string, nick: string, id: UserID, m: Membership,
                 step: Stepper, clock: nat -> Int64, k: nat)
    requires HandlesModes(step, server, clock) && IsStandard(name) && Names(w, name, ch)
    requires w.FindByNick(nick).Some? && w.FindByNick(nick).value.id == id
    requires id in ch.members && ch.members[id] == NO_FLAGS
    ensures RunAll(step, Put(w, ch),
                   OptionalLine(m.IsOp(), ModeLine(server, name, "+o", [nick]))
                     + OptionalLine(m.IsVoice(), ModeLine(server, name, "+v", [nick])), k)
         == Put(w, WithFlags(ch, id, ReplicaFlags(m)))
  {
    var ops := OptionalLine(m.IsOp(), ModeLine(server, name, "+o", [nick]));
    var voices := OptionalLine(m.IsVoice(), ModeLine(server, name, "+v", [nick]));
    var mid := OptionalFlag(w, ch, server, name, 'o', Op, nick, m.IsOp(), step, clock, k);
    var after := OptionalFlag(w, mid, server, name, 'v', Voice, nick, m.IsVoice(), step, clock, k + |ops|);
    RunConcat(step, Put(w, ch), ops, voices, k);
    BothFlags(ch, id, m);
  }

  /** The flag lines of one member. */
  lemma MemberFlags(a: WorldState, src: ChanState, cid: map<UserID, UserID>, id: UserID, w: WorldState, ch: ChanState,
                    server: string,
                    step: Stepper, clock: nat -> Int64, k: nat)
    requires Linked(a, w, cid) && HandlesModes(step, server, clock) && IsStandard(src.name) && Names(w, src.name, ch)
    requires id in cid && id in src.members && cid[id] in ch.members && ch.members[cid[id]] == NO_FLAGS
    ensures RunAll(step, Put(w, ch), FlagLinesOf(a, server, src, id), k)
            == Put(w, WithFlags(ch, cid[id], ReplicaFlags(src.members[id])))
  {
    assert Known(w, a.users[id]);
    TwoFlags(w, ch, server, src.name, a.users[id].nick, cid[id], src.members[id], step, clock, k);
  }

  lemma BothFlags(ch: ChanState, id: UserID, m: Membership)
    requires id in ch.members && ch.members[id] == NO_FLAGS
    ensures var mid := if m.IsOp() then ch.AddMembership(id, Op) else ch;
            (if m.IsVoice() then mid.AddMembership(id, Voice) else mid) == WithFlags(ch, id, ReplicaFlags(m))
  {
    var mid := if m.IsOp() then ch.AddMembership(id, Op) else ch;
    assert (if m.IsVoice() then mid.AddMembership(id, Voice) else mid).members == ch.members[id := ReplicaFlags(m)];
  }

  ghost predicate GainedFlags(src: ChanState, cid: map<UserID, UserID>, ch: ChanState, after: ChanState,
                              ids: seq<UserID>)
  {
    && after == ch.(members := after.members) && after.members.Keys == ch.members.Keys
    && (forall id :: id in ids && id in cid && id in src.members && cid[id] in after.members ==>
          after.members[cid[id]] == ReplicaFlags(src.members[id]))
    && (forall x :: x in ch.members && x !in Copies(cid, ids) ==> after.members[x] == ch.members[x])
  }

  /** The copies of these members have no flags yet. */
  ghost predicate Unflagged(src: ChanState, cid: map<UserID, UserID>, ch: ChanState, ids: seq<UserID>) {
    forall id :: id in ids && id in cid && id in src.members ==>
      cid[id] in ch.members && ch.members[cid[id]] == NO_FLAGS
  }

  lemma GainedFlagsCompose(src: ChanState, cid: map<UserID, UserID>, ch: ChanState, id: UserID, rest: seq<UserID>,
                           mid: ChanState, after: ChanState)
    requires Injective(cid) && id !in rest && GainedFlags(src, cid, mid, after, rest)
    requires if id in cid && id in src.members then
               cid[id] in ch.members && mid == WithFlags(ch, cid[id], ReplicaFlags(src.members[id]))
             else mid == ch
    ensures GainedFlags(src, cid, ch, after, [id] + rest)
  {
    CopiesStep(cid, id, rest);
    assert id in cid ==> cid[id] !in Copies(cid, rest);
  }

  lemma StillUnflagged(src: ChanState, cid: map<UserID, UserID>, ch: ChanState, id: UserID, rest: seq<UserID>,
                       m: Membership)
    requires Injective(cid) && id in cid && id !in rest && cid[id] in ch.members && Unflagged(src, cid, ch, rest)
    ensures Unflagged(src, cid, WithFlags(ch, cid[id], m), rest)
  {
  }

  lemma OneFlagged(a: WorldState, src: ChanState, cid: map<UserID, UserID>, id: UserID, rest: seq<UserID>,
                   w: WorldState, ch: ChanState,
                   server: string, step: Stepper, clock: nat -> Int64, k: nat) returns (mid: ChanState)
    requires Linked(a, w, cid) && HandlesModes(step, server, clock) && IsStandard(src.name) && Names(w, src.name, ch)
    requires id !in rest && Unflagged(src, cid, ch, [id] + rest)
    ensures RunAll(step, Put(w, ch), FlagLinesOf(a, server, src, id), k) == Put(w, mid)
    ensures mid == if id in cid && id in src.members
                   then WithFlags(ch, cid[id], ReplicaFlags(src.members[id]))
                   else ch
    ensures id in cid && id in src.members ==> cid[id] in ch.members
    ensures mid.name == ch.name && Unflagged(src, cid, mid, rest)
  {
    assert id in [id] + rest && forall x :: x in rest ==> x in [id] + rest;
    mid := ch;
    if id in cid && id in src.members {
      mid := WithFlags(ch, cid[id], ReplicaFlags(src.members[id]));
      MemberFlags(a, src, cid, id, w, ch, server, step, clock, k);
      StillUnflagged(src, cid, ch, id, rest, ReplicaFlags(src.members[id]));
    }
  }

  lemma {:induction false} FlagsArrive(a: WorldState, src: ChanState, cid: map<UserID, UserID>, ids: seq<UserID>,
                                       w: WorldState, ch: ChanState,
                                       server: string, step: Stepper, clock: nat -> Int64,
                                       k: nat) returns (after: ChanState)
    requires Linked(a, w, cid) && HandlesModes(step, server, clock) && IsStandard(src.name) && Names(w, src.name, ch)
    requires NoDups(ids) && Unflagged(src, cid, ch, ids)
    ensures RunAll(step, Put(w, ch), FlagLines(a, server, src, ids), k) == Put(w, after)
    ensures GainedFlags(src, cid, ch, after, ids)
    decreases |ids|
  {
    after := ch;
    if ids != [] {
      var id, rest := ids[0], ids[1..];
      var first, more := FlagLinesOf(a, server, src, id), FlagLines(a, server, src, rest);
      assert ids == [id] + rest;
      var mid := OneFlagged(a, src, cid, id, rest, w, ch, server, step, clock, k);
      after := FlagsArrive(a, src, cid, rest, w, mid, server, step, clock, k + |first|);
      RunThen(step, Put(w, ch), Put(w, mid), Put(w, after), first, more, k);
      GainedFlagsCompose(src, cid, ch, id, rest, mid, after);
    }
  }

  // ----- one channel: a replica -----

  function CopiedMembers(src: ChanState, cid: map<UserID, UserID>): set<UserID> {
    set id | id in src.members && id in cid :: cid[id]
  }

  ghost predicate ReplicaSettings(src: ChanState, b: ChanState) {
    if IsStandard(src.name) then
      && b.modes == ReplicaModes(src.modes) && b.key == src.key && b.limit == ReplicaLimit(src.limit)
      && b.lists.bans.Keys == src.lists.bans.Keys
    else
      b.modes == DEFAULT_MODES && b.key == "" && b.limit == 0 && b.lists.bans == map[]
  }

  ghost predicate ReplicaMembers(src: ChanState, cid: map<UserID, UserID>, b: ChanState) {
    && b.members.Keys == CopiedMembers(src, cid)
    && forall id :: id in src.members && id in cid && cid[id] in b.members ==>
         b.members[cid[id]] == if IsStandard(src.name) then ReplicaFlags(src.members[id]) else NO_FLAGS
  }

  /** `b` on the receiving node is what the sender's channel `src` should arrive as. */
  ghost predicate IsReplica(src: ChanState, cid: map<UserID, UserID>, b: ChanState) {
    && b.name == src.name && b.createdAt == src.createdAt && b.topic.text == src.topic.text
    && b.lists.exceptions == b.lists.invexes == b.lists.quiets == map[] && b.invites == {}
    && ReplicaSettings(src, b) && ReplicaMembers(src, cid, b)
  }

  /** The topic afterwards: that of the sender, if it has one. */
  lemma TopicArrives(w: WorldState, ch: ChanState, server: string, src: ChanState, step: Stepper, clock: nat -> Int64,
                     k: nat)
    returns (after: ChanState)
    requires HandlesTopics(step, server, clock) && Names(w, src.name, ch)
    ensures RunAll(step, Put(w, ch), TopicLines(server, src), k) == Put(w, after)
    ensures after == ch.(topic := after.topic)
    ensures after.topic.text == if src.topic.text != "" then src.topic.text else ch.topic.text
  {
    after := ch;
    if src.topic.text != "" {
      after := ch.(topic := Topic(src.topic.text, server, clock(k)));
      RunOne(step, Put(w, ch), Plain(server, "TOPIC", [src.name, src.topic.text]), k);
    }
  }

  lemma WordArrives(src: ChanState, w: WorldState, ch: ChanState, server: string, step: Stepper, clock: nat -> Int64,
                    k: nat)
    requires HandlesModes(step, server, clock) && IsStandard(src.name) && Names(w, src.name, ch)
    ensures RunAll(step, Put(w, ch), [ModeLine(server, src.name, ModeWord(src), ModeParams(src))], k)
            == Put(w, WordOnto(ch, src))
  {
    ModeWordOnto(Put(w, ch), ch, src, clock(k));
    RunOne(step, Put(w, ch), ModeLine(server, src.name, ModeWord(src), ModeParams(src)), k);
  }

  function ModeLines(a: WorldState, server: string, src: ChanState, o: ChanOrder): seq<Message> {
    [ModeLine(server, src.name, ModeWord(src), ModeParams(src))]
    + (BanLines(server, src.name, o.bans) + FlagLines(a, server, src, o.flags))
  }

  /** The ban and flag lines of a standard channel; `banned` is the channel between the two. */
  lemma BansAndFlagsArrive(a: WorldState, src: ChanState, cid: map<UserID, UserID>, o: ChanOrder, w: WorldState,
                           ch: ChanState, server: string,
                           step: Stepper, clock: nat -> Int64, k: nat) returns (banned: ChanState, after: ChanState)
    requires Linked(a, w, cid) && HandlesModes(step, server, clock)
    requires IsStandard(src.name) && Names(w, src.name, ch) && NoDups(o.flags) && "" !in o.bans
             && Unflagged(src, cid, ch, o.flags)
    ensures RunAll(step, Put(w, ch), BanLines(server, src.name, o.bans) + FlagLines(a, server, src, o.flags), k)
            == Put(w, after)
    ensures GainedBans(ch, banned, o.bans) && GainedFlags(src, cid, banned, after, o.flags)
  {
    var bans, flags := BanLines(server, src.name, o.bans), FlagLines(a, server, src, o.flags);
    banned := BansArrive(w, ch, server, src.name, o.bans, step, clock, k);
    after := FlagsArrive(a, src, cid, o.flags, w, banned, server, step, clock, k + |bans|);
    RunThen(step, Put(w, ch), Put(w, banned), Put(w, after), bans, flags, k);
  }

  /** The MODE lines of a standard channel, mode word first. */
  lemma StandardModesArrive(a: WorldState, src: ChanState, cid: map<UserID, UserID>, o: ChanOrder, w: WorldState,
                            ch: ChanState, server: string, step: Stepper, clock: nat -> Int64, k: nat)
    returns (banned: ChanState, after: ChanState)
    requires Linked(a, w, cid) && HandlesModes(step, server, clock)
    requires IsStandard(src.name) && Names(w, src.name, ch) && NoDups(o.flags) && "" !in o.bans
    requires Unflagged(src, cid, ch, o.flags)
    ensures RunAll(step, Put(w, ch), ModeLines(a, server, src, o), k) == Put(w, after)
    ensures GainedBans(WordOnto(ch, src), banned, o.bans) && GainedFlags(src, cid, banned, after, o.flags)
  {
    WordArrives(src, w, ch, server, step, clock, k);
    banned, after := BansAndFlagsArrive(a, src, cid, o, w, WordOnto(ch, src), server, step, clock, k + 1);
    RunThen(step, Put(w, ch), Put(w, WordOnto(ch, src)), Put(w, after),
            [ModeLine(server, src.name, ModeWord(src), ModeParams(src))],
            BanLines(server, src.name, o.bans) + FlagLines(a, server, src, o.flags), k);
  }

  lemma StandardIsReplica(src: ChanState, cid: map<UserID, UserID>, o: ChanOrder, ch: ChanState, banned: ChanState,
                          after: ChanState)
    requires IsStandard(src.name) && OrdersChan(o, src)
    requires ch == Joined(src.name, src.createdAt, Copies(cid, o.members)).(topic := ch.topic)
             && ch.topic.text == src.topic.text
    requires GainedBans(WordOnto(ch, src), banned, o.bans) && GainedFlags(src, cid, banned, after, o.flags)
    ensures IsReplica(src, cid, after)
  {
    assert Copies(cid, o.members) == CopiedMembers(src, cid);
    assert MergedModes(DEFAULT_MODES, src.modes) == ReplicaModes(src.modes);
    assert after.lists.bans.Keys == src.lists.bans.Keys;
  }

  // ----- '!' and '+' channels: MODE lines do nothing -----

  lemma IgnoredStep(w: WorldState, ch: ChanState, server: string, word: string, args: seq<string>, step: Stepper,
                    clock: nat -> Int64, k: nat)
    requires HandlesModes(step, server, clock) && !IsStandard(ch.name) && Names(w, ch.name, ch)
    ensures step(Put(w, ch), ModeLine(server, ch.name, word, args), k) == Put(w, ch)
  {
  }

  lemma {:induction false} BansIgnored(w: WorldState, ch: ChanState, server: string, masks: seq<string>, step: Stepper,
                                       clock: nat -> Int64, k: nat)
    requires HandlesModes(step, server, clock) && !IsStandard(ch.name) && Names(w, ch.name, ch)
    ensures RunAll(step, Put(w, ch), BanLines(server, ch.name, masks), k) == Put(w, ch)
    decreases |masks|
  {
    if masks != [] {
      var line := ModeLine(server, ch.name, "+b", [masks[0]]);
      RunConcat(step, Put(w, ch), [line], BanLines(server, ch.name, masks[1..]), k);
      RunOne(step, Put(w, ch), line, k);
      IgnoredStep(w, ch, server, "+b", [masks[0]], step, clock, k);
      BansIgnored(w, ch, server, masks[1..], step, clock, k + 1);
    }
  }

  lemma OptionalIgnored(w: WorldState, ch: ChanState, server: string, word: string, nick: string, has: bool,
                        step: Stepper, clock: nat -> Int64, k: nat)
    requires HandlesModes(step, server, clock) && !IsStandard(ch.name) && Names(w, ch.name, ch)
    ensures RunAll(step, Put(w, ch), OptionalLine(has, ModeLine(server, ch.name, word, [nick])), k) == Put(w, ch)
  {
    if has {
      RunOne(step, Put(w, ch), ModeLine(server, ch.name, word, [nick]), k);
      IgnoredStep(w, ch, server, word, [nick], step, clock, k);
    }
  }

  lemma {:induction false} FlagsIgnored(a: WorldState, src: ChanState, ids: seq<UserID>, w: WorldState, ch: ChanState,
                                        server: string,
                                        step: Stepper, clock: nat -> Int64, k: nat)
    requires HandlesModes(step, server, clock) && !IsStandard(ch.name) && Names(w, ch.name, ch) && src.name == ch.name
    ensures RunAll(step, Put(w, ch), FlagLines(a, server, src, ids), k) == Put(w, ch)
    decreases |ids|
  {
    if ids != [] {
      var id := ids[0];
      var first := FlagLinesOf(a, server, src, id);
      RunConcat(step, Put(w, ch), first, FlagLines(a, server, src, ids[1..]), k);
      FlagsIgnored(a, src, ids[1..], w, ch, server, step, clock, k + |first|);
      if IsLocal(a, id) && id in src.members {
        var nick, m := a.users[id].nick, src.members[id];
        var ops := OptionalLine(m.IsOp(), ModeLine(server, ch.name, "+o", [nick]));
        var voices := OptionalLine(m.IsVoice(), ModeLine(server, ch.name, "+v", [nick]));
        OptionalIgnored(w, ch, server, "+o", nick, m.IsOp(), step, clock, k);
        OptionalIgnored(w, ch, server, "+v", nick, m.IsVoice(), step, clock, k + |ops|);
        RunConcat(step, Put(w, ch), ops, voices, k);
        assert first == ops + voices;
      }
    }
  }

  lemma OtherModesIgnored(a: WorldState, src: ChanState, o: ChanOrder, w: WorldState, ch: ChanState, server: string,
                          step: Stepper, clock: nat -> Int64, k: nat)
    requires HandlesModes(step, server, clock) && !IsStandard(ch.name) && Names(w, ch.name, ch) && src.name == ch.name
    ensures RunAll(step, Put(w, ch), ModeLines(a, server, src, o), k) == Put(w, ch)
  {
    var word := ModeLine(server, src.name, ModeWord(src), ModeParams(src));
    var bans, flags := BanLines(server, src.name, o.bans), FlagLines(a, server, src, o.flags);
    RunOne(step, Put(w, ch), word, k);
    IgnoredStep(w, ch, server, ModeWord(src), ModeParams(src), step, clock, k);
    RunConcat(step, Put(w, ch), [word], bans + flags, k);
    RunConcat(step, Put(w, ch), bans, flags, k + 1);
    BansIgnored(w, ch, server, o.bans, step, clock, k + 1);
    FlagsIgnored(a, src, o.flags, w, ch, server, step, clock, k + 1 + |bans|);
  }

  // ----- one channel, whole -----

  lemma OtherIsReplica(src: ChanState, cid: map<UserID, UserID>, o: ChanOrder, ch: ChanState)
    requires !IsStandard(src.name) && OrdersChan(o, src)
    requires ch == Joined(src.name, src.createdAt, Copies(cid, o.members)).(topic := ch.topic)
             && ch.topic.text == src.topic.text
    ensures IsReplica(src, cid, ch)
  {
    assert Copies(cid, o.members) == CopiedMembers(src, cid);
  }

  /** The lines after the joins turn a joined channel into a replica. */
  lemma SettingsArrive(a: WorldState, src: ChanState, cid: map<UserID, UserID>, o: ChanOrder, w: WorldState,
                       server: string,
                       step: Stepper, clock: nat -> Int64, k: nat) returns (after: ChanState)
    requires Linked(a, w, cid) && HandlesTopics(step, server, clock) && HandlesModes(step, server, clock)
    requires src.name != "" && OrdersChan(o, src) && "" !in src.lists.bans
    ensures RunAll(step, Put(w, Joined(src.name, src.createdAt, Copies(cid, o.members))),
            SettingLines(a, server, src, o), k)
         == Put(w, after)
    ensures IsReplica(src, cid, after)
  {
    hide HandlesModes, HandlesTopics, Linked, IsReplica;
    var joined := Joined(src.name, src.createdAt, Copies(cid, o.members));
    var topics, modes := TopicLines(server, src), ModeLines(a, server, src, o);
    var ch := TopicArrives(w, joined, server, src, step, clock, k);
    RunConcat(step, Put(w, joined), topics, modes, k);
    if IsStandard(src.name) {
      var banned;
      banned, after := StandardModesArrive(a, src, cid, o, w, ch, server, step, clock, k + |topics|);
      StandardIsReplica(src, cid, o, ch, banned, after);
    } else {
      after := ch;
      OtherModesIgnored(a, src, o, w, ch, server, step, clock, k + |topics|);
      OtherIsReplica(src, cid, o, ch);
    }
  }

  /** All lines of one channel that the receiving node does not have yet. */
  lemma ChannelArrives(a: WorldState, src: ChanState, cid: map<UserID, UserID>, o: ChanOrder, w: WorldState,
                       server: string,
                       step: Stepper, clock: nat -> Int64, k: nat) returns (after: ChanState)
    requires Linked(a, w, cid) && HandlesJoins(step, clock) && HandlesTopics(step, server, clock)
             && HandlesModes(step, server, clock)
    requires src.name != "" && OrdersChan(o, src) && "" !in src.lists.bans
    requires w.Key(src.name) !in w.chans && 0 < src.createdAt && Later(clock, src.createdAt)
    ensures RunAll(step, w, ChanLines(a, server, src, o), k) == if HasLocal(a, src) then Put(w, after) else w
    ensures HasLocal(a, src) ==> IsReplica(src, cid, after)
  {
    JoinsArrive(a, src, cid, o.members, w, {}, step, clock, k);
    assert {} + Copies(cid, o.members) == Copies(cid, o.members);
    if HasLocal(a, src) {
      var id :| id in src.members && IsLocal(a, id);
      assert cid[id] in Copies(cid, o.members);
      var joins, rest := JoinLines(a, src, o.members), SettingLines(a, server, src, o);
      var joined := Put(w, Joined(src.name, src.createdAt, Copies(cid, o.members)));
      after := SettingsArrive(a, src, cid, o, w, server, step, clock, k + |joins|);
      RunThen(step, w, joined, Put(w, after), joins, rest, k);
    } else {
      after := src;
      assert Copies(cid, o.members) == {};
      assert JoinLines(a, src, o.members) + [] == JoinLines(a, src, o.members);
    }
  }
}
