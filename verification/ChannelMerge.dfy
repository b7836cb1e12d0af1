/** A channel that two nodes already share when their link comes up: what each makes of the other's lines,
    and when the two copies agree afterwards. */
module ChannelMerge {
  import opened Prelude
  import opened Numbers
  import opened Message
  import opened State
  import opened ModeSpec
  import opened ModeProofs
  import opened FedSpec
  import opened BurstUsers
  import opened BurstChannels
  import opened BurstReplay

  // ----- joins onto a channel -----

  ghost predicate HandlesJoinsOnto(step: Stepper) {
    forall w: WorldState, ch: ChanState, src: ChanState, u: UserState, k: nat
      {:trigger step(Put(w, ch), JoinLine(src, u), k)} ::
      Known(w, u) && Names(w, src.name, ch) && ch.members != map[] && src.createdAt > 0 ==>
      step(Put(w, ch), JoinLine(src, u), k)
        == Put(w, Older(ch.AddMember(w.FindByNick(u.nick).value.id, false), src.createdAt))
  }

  lemma EnteredAgain(ch: ChanState, id: UserID, safe: bool)
    requires ch.members != map[]
    ensures Entered(ch, id, false, safe) == ch.AddMember(id, false)
  {
    assert |ch.members| > 0;
  }

  lemma JoinLineOnto(w: WorldState, local: string, peer: string, ch: ChanState, src: ChanState, u: UserState,
                     now: Int64)
    requires Known(w, u) && Names(w, src.name, ch) && ch.members != map[] && src.createdAt > 0
    ensures Handle(Put(w, ch), local, peer, JoinLine(src, u), now).w
         == Put(w, Older(ch.AddMember(w.FindByNick(u.nick).value.id, false), src.createdAt))
  {
    var id := w.FindByNick(u.nick).value.id;
    var before := Put(w, ch);
    JoinDispatch(before, local, peer, src, u, now);
    PutFinds(w, ch, u.nick);
    JoinEffect(before, JoinLine(src, u), src, id, now);
    EnteredAgain(ch, id, IsSafe(src.name));
    PutTwice(w, ch, Older(ch.AddMember(id, false), src.createdAt));
  }

  lemma StepHandlesJoinsOnto(local: string, peer: string, clock: nat -> Int64)
    ensures HandlesJoinsOnto(Step(local, peer, clock))
  {
    forall w: WorldState, ch: ChanState, src: ChanState, u: UserState, k: nat
      | Known(w, u) && Names(w, src.name, ch) && ch.members != map[] && src.createdAt > 0
      ensures Step(local, peer, clock)(Put(w, ch), JoinLine(src, u), k)
           == Put(w, Older(ch.AddMember(w.FindByNick(u.nick).value.id, false), src.createdAt))
    {
      JoinLineOnto(w, local, peer, ch, src, u, clock(k));
    }
  }

  function NewMembers(members: map<UserID, Membership>, ids: set<UserID>): map<UserID, Membership> {
    map id | id in members.Keys + ids :: if id in members then members[id] else NO_FLAGS
  }

  /** The channel after users joined it under the timestamp `ts`: an older timestamp takes everybody's flags. */
  function JoinedOnto(ch: ChanState, ts: Int64, ids: set<UserID>): ChanState {
    if ids == {} then ch
    else
      var base := Older(ch, ts);
      base.(members := NewMembers(base.members, ids))
  }

  lemma FirstOnto(ch: ChanState, ts: Int64, id: UserID)
    requires id !in ch.members
    ensures Older(ch.AddMember(id, false), ts) == JoinedOnto(ch, ts, {id})
  {
    assert Older(ch.AddMember(id, false), ts).members == NewMembers(Older(ch, ts).members, {id});
  }

  lemma NextOnto(ch: ChanState, ts: Int64, ids: set<UserID>, id: UserID)
    requires ids != {} && ts > 0
    ensures Older(JoinedOnto(ch, ts, ids).AddMember(id, false), ts) == JoinedOnto(ch, ts, ids + {id})
  {
    var base := Older(ch, ts);
    assert JoinedOnto(ch, ts, ids).AddMember(id, false).members == NewMembers(base.members, ids + {id});
  }

  lemma OnlyOnto(ch: ChanState, ts: Int64, ids: set<UserID>)
    requires ch.members != map[]
    ensures JoinedOnto(ch, ts, ids).name == ch.name && JoinedOnto(ch, ts, ids).members != map[]
  {
    var id :| id in ch.members;
    assert id in JoinedOnto(ch, ts, ids).members;
  }

  lemma OneJoinsOnto(a: WorldState, src: ChanState, cid: map<UserID, UserID>, id: UserID, w: WorldState, ch: ChanState,
                     done: set<UserID>, step: Stepper, k: nat)
    requires Linked(a, w, cid) && HandlesJoinsOnto(step) && Names(w, src.name, ch) && src.createdAt > 0
    requires ch.members != map[] && forall x :: x in cid ==> cid[x] !in ch.members
    ensures RunAll(step, Put(w, JoinedOnto(ch, src.createdAt, done)), JoinLinesOf(a, src, id), k)
         == Put(w, JoinedOnto(ch, src.createdAt, done + Copies(cid, [id])))
  {
    var now := JoinedOnto(ch, src.createdAt, done);
    OnlyOnto(ch, src.createdAt, done);
    if id in cid {
      assert Known(w, a.users[id]);
      assert Copies(cid, [id]) == {cid[id]};
      RunOne(step, Put(w, now), JoinLine(src, a.users[id]), k);
      if done == {} {
        FirstOnto(ch, src.createdAt, cid[id]);
        assert done + {cid[id]} == {cid[id]};
      } else {
        NextOnto(ch, src.createdAt, done, cid[id]);
      }
    } else {
      assert done + Copies(cid, [id]) == done;
    }
  }

  lemma {:induction false} JoinsOnto(a: WorldState, src: ChanState, cid: map<UserID, UserID>, ids: seq<UserID>,
                                     w: WorldState, ch: ChanState, done: set<UserID>, step: Stepper, k: nat)
    requires Linked(a, w, cid) && HandlesJoinsOnto(step) && Names(w, src.name, ch) && src.createdAt > 0
    requires ch.members != map[] && forall x :: x in cid ==> cid[x] !in ch.members
    ensures RunAll(step, Put(w, JoinedOnto(ch, src.createdAt, done)), JoinLines(a, src, ids), k)
         == Put(w, JoinedOnto(ch, src.createdAt, done + Copies(cid, ids)))
    decreases |ids|
  {
    hide HandlesJoinsOnto, Linked, JoinedOnto, Names;
    var ts := src.createdAt;
    if ids == [] {
      assert done + Copies(cid, ids) == done;
    } else {
      var id, rest := ids[0], ids[1..];
      var first, more := JoinLinesOf(a, src, id), JoinLines(a, src, rest);
      var done' := done + Copies(cid, [id]);
      assert ids == [id] + rest;
      assert done + Copies(cid, ids) == done' + Copies(cid, rest);
      OneJoinsOnto(a, src, cid, id, w, ch, done, step, k);
      JoinsOnto(a, src, cid, rest, w, ch, done', step, k + |first|);
      RunThen(step, Put(w, JoinedOnto(ch, ts, done)), Put(w, JoinedOnto(ch, ts, done')),
              Put(w, JoinedOnto(ch, ts, done' + Copies(cid, rest))), first, more, k);
    }
  }

  // ----- all lines of a channel -----

  ghost predicate MergedMembers(src: ChanState, dst: ChanState, cid: map<UserID, UserID>, after: ChanState) {
    && after.members.Keys == dst.members.Keys + CopiedMembers(src, cid)
    && (forall id :: id in dst.members && id in after.members ==>
          after.members[id] == if dst.TSIsOlder(src.createdAt) then NO_FLAGS else dst.members[id])
    && (forall id :: id in src.members && id in cid && cid[id] in after.members ==>
          after.members[cid[id]] == ReplicaFlags(src.members[id]))
  }

  /** `after` is the receiving node's channel `dst` with the sender's channel `src` taken in: members, modes
      and bans of both, the sender's key, limit and topic where it has them, and the older timestamp. When
      that is the sender's, the members there were have lost their flags. */
  ghost predicate Merges(src: ChanState, dst: ChanState, cid: map<UserID, UserID>, after: ChanState) {
    && after.name == dst.name && after.invites == dst.invites
    && after.createdAt == (if dst.TSIsOlder(src.createdAt) then src.createdAt else dst.createdAt)
    && after.topic.text == (if src.topic.text != "" then src.topic.text else dst.topic.text)
    && after.modes == MergedModes(dst.modes, src.modes)
    && after.key == (if src.key != "" then src.key else dst.key)
    && after.limit == (if src.limit > 0 then src.limit else dst.limit)
    && after.lists == dst.lists.(bans := after.lists.bans)
    && after.lists.bans.Keys == dst.lists.bans.Keys + src.lists.bans.Keys
    && MergedMembers(src, dst, cid, after)
  }

  lemma MembersOnto(src: ChanState, cid: map<UserID, UserID>, o: ChanOrder, dst: ChanState, ch: ChanState)
    requires OrdersChan(o, src) && forall x :: x in cid ==> cid[x] !in dst.members
    requires Copies(cid, o.members) != {}
    requires ch.members == JoinedOnto(dst, src.createdAt, Copies(cid, o.members)).members
    ensures Unflagged(src, cid, ch, o.flags) && Copies(cid, o.members) == CopiedMembers(src, cid)
    ensures ch.members.Keys == dst.members.Keys + CopiedMembers(src, cid)
    ensures forall id :: id in dst.members ==>
              ch.members[id] == if dst.TSIsOlder(src.createdAt) then NO_FLAGS else dst.members[id]
  {
    assert Copies(cid, o.members) == CopiedMembers(src, cid);
    forall id | id in o.flags && id in cid && id in src.members
      ensures cid[id] in ch.members && ch.members[cid[id]] == NO_FLAGS
    {
      assert cid[id] in CopiedMembers(src, cid);
    }
  }

  lemma LinesMerge(src: ChanState, cid: map<UserID, UserID>, o: ChanOrder, dst: ChanState, ch: ChanState,
                   banned: ChanState, after: ChanState)
    requires OrdersChan(o, src) && (forall x :: x in cid ==> cid[x] !in dst.members) && Copies(cid, o.members) != {}
    requires ch == JoinedOnto(dst, src.createdAt, Copies(cid, o.members)).(topic := ch.topic)
    requires ch.topic.text == if src.topic.text != "" then src.topic.text else dst.topic.text
    requires GainedBans(WordOnto(ch, src), banned, o.bans) && GainedFlags(src, cid, banned, after, o.flags)
    ensures Merges(src, dst, cid, after)
  {
    MembersOnto(src, cid, o, dst, ch);
    assert Copies(cid, o.flags) == CopiedMembers(src, cid);
    assert (set m | m in o.bans) == src.lists.bans.Keys;
  }

  lemma TopicOnto(src: ChanState, ids: set<UserID>, w: WorldState, dst: ChanState, server: string, step: Stepper,
                  clock: nat -> Int64, k: nat) returns (ch: ChanState)
    requires HandlesTopics(step, server, clock) && Names(w, src.name, dst) && dst.members != map[]
    ensures RunAll(step, Put(w, JoinedOnto(dst, src.createdAt, ids)), TopicLines(server, src), k) == Put(w, ch)
    ensures ch == JoinedOnto(dst, src.createdAt, ids).(topic := ch.topic) && Names(w, src.name, ch)
    ensures ch.topic.text == if src.topic.text != "" then src.topic.text else dst.topic.text
  {
    hide HandlesTopics, JoinedOnto;
    OnlyOnto(dst, src.createdAt, ids);
    TopicStays(dst, src.createdAt, ids);
    ch := TopicArrives(w, JoinedOnto(dst, src.createdAt, ids), server, src, step, clock, k);
  }

  lemma ModesOnto(a: WorldState, src: ChanState, cid: map<UserID, UserID>, o: ChanOrder, w: WorldState, dst: ChanState,
                  ch: ChanState, server: string, step: Stepper, clock: nat -> Int64, k: nat)
    returns (after: ChanState)
    requires Linked(a, w, cid) && HandlesModes(step, server, clock) && OrdersChan(o, src) && "" !in src.lists.bans
    requires IsStandard(src.name) && Names(w, src.name, ch)
    requires (forall x :: x in cid ==> cid[x] !in dst.members) && Copies(cid, o.members) != {}
    requires ch == JoinedOnto(dst, src.createdAt, Copies(cid, o.members)).(topic := ch.topic)
    requires ch.topic.text == if src.topic.text != "" then src.topic.text else dst.topic.text
    ensures RunAll(step, Put(w, ch), ModeLines(a, server, src, o), k) == Put(w, after)
    ensures Merges(src, dst, cid, after)
  {
    hide HandlesModes, Linked, Merges, JoinedOnto, GainedBans, GainedFlags, OrdersChan, Unflagged, Names;
    ListedOnce(src, o);
    MembersOnto(src, cid, o, dst, ch);
    var banned;
    banned, after := StandardModesArrive(a, src, cid, o, w, ch, server, step, clock, k);
    LinesMerge(src, cid, o, dst, ch, banned, after);
  }

  /** The lines after the joins. */
  lemma SettingsOnto(a: WorldState, src: ChanState, cid: map<UserID, UserID>, o: ChanOrder, w: WorldState,
                     dst: ChanState, server: string, step: Stepper, clock: nat -> Int64, k: nat)
    returns (after: ChanState)
    requires Linked(a, w, cid) && HandlesTopics(step, server, clock) && HandlesModes(step, server, clock)
    requires OrdersChan(o, src) && "" !in src.lists.bans && IsStandard(src.name) && Names(w, src.name, dst)
    requires dst.members != map[] && (forall x :: x in cid ==> cid[x] !in dst.members) && Copies(cid, o.members) != {}
    ensures RunAll(step, Put(w, JoinedOnto(dst, src.createdAt, Copies(cid, o.members))),
                   SettingLines(a, server, src, o), k)
         == Put(w, after)
    ensures Merges(src, dst, cid, after)
  {
    hide HandlesModes, HandlesTopics, Linked, Merges, JoinedOnto, OrdersChan, Names;
    var joined := JoinedOnto(dst, src.createdAt, Copies(cid, o.members));
    var topics, modes := TopicLines(server, src), ModeLines(a, server, src, o);
    var ch := TopicOnto(src, Copies(cid, o.members), w, dst, server, step, clock, k);
    after := ModesOnto(a, src, cid, o, w, dst, ch, server, step, clock, k + |topics|);
    RunThen(step, Put(w, joined), Put(w, ch), Put(w, after), topics, modes, k);
  }

  lemma ListedOnce(src: ChanState, o: ChanOrder)
    requires OrdersChan(o, src) && "" !in src.lists.bans
    ensures NoDups(o.flags) && "" !in o.bans
  {
  }

  lemma TopicStays(ch: ChanState, ts: Int64, ids: set<UserID>)
    ensures JoinedOnto(ch, ts, ids).topic == ch.topic
  {
  }

  /** The lines of a standard channel arriving at a node that has the channel, with members of its own. */
  lemma ChannelMerges(a: WorldState, src: ChanState, cid: map<UserID, UserID>, o: ChanOrder, w: WorldState,
                      dst: ChanState, server: string, step: Stepper, clock: nat -> Int64, k: nat)
    returns (after: ChanState)
    requires Linked(a, w, cid) && HandlesJoinsOnto(step) && HandlesTopics(step, server, clock)
    requires HandlesModes(step, server, clock) && OrdersChan(o, src) && "" !in src.lists.bans && src.createdAt > 0
    requires IsStandard(src.name) && Names(w, src.name, dst) && HasLocal(a, src)
    requires dst.members != map[] && forall x :: x in cid ==> cid[x] !in dst.members
    ensures RunAll(step, Put(w, dst), ChanLines(a, server, src, o), k) == Put(w, after)
    ensures Merges(src, dst, cid, after)
  {
    hide HandlesJoinsOnto, HandlesModes, HandlesTopics, Linked, Merges, OrdersChan;
    var ids := Copies(cid, o.members);
    SomeCopies(a, src, cid, o, w);
    JoinsOnto(a, src, cid, o.members, w, dst, {}, step, k);
    assert {} + ids == ids;
    var joined := JoinedOnto(dst, src.createdAt, ids);
    var joins, rest := JoinLines(a, src, o.members), SettingLines(a, server, src, o);
    after := SettingsOnto(a, src, cid, o, w, dst, server, step, clock, k + |joins|);
    RunThen(step, Put(w, dst), Put(w, joined), Put(w, after), joins, rest, k);
  }

  lemma SomeCopies(a: WorldState, src: ChanState, cid: map<UserID, UserID>, o: ChanOrder, w: WorldState)
    requires Linked(a, w, cid) && OrdersChan(o, src) && HasLocal(a, src)
    ensures Copies(cid, o.members) != {}
  {
    var id :| id in src.members && IsLocal(a, id);
    assert cid[id] in Copies(cid, o.members);
  }

  // ----- both directions -----

  /** Node `w` is node `a` after the other node's users arrived: the members of `x` are its own users. */
  ghost predicate KeepsMembers(a: WorldState, x: ChanState, w: WorldState) {
    && a.Valid() && w.Valid() && x.members != map[]
    && forall id :: id in x.members ==> IsLocal(a, id) && id in w.users && w.users[id] == a.users[id]
  }

  /** '#' and '&' channels have no creators, limits are not negative, and timestamps are positive. */
  ghost predicate Ordinary(x: ChanState) {
    IsStandard(x.name) && x.createdAt > 0 && x.limit >= 0 && forall id :: id in x.members ==> !x.members[id].creator
  }

  ghost predicate Unprivileged(x: ChanState) {
    forall id :: id in x.members ==> !x.members[id].op && !x.members[id].voice
  }

  /** When two copies of a channel agree after the nodes have exchanged them. */
  ghost predicate Compatible(x: ChanState, y: ChanState) {
    && (x.key == y.key || x.key == "" || y.key == "") && (x.limit == y.limit || x.limit == 0 || y.limit == 0)
    && (x.topic.text == y.topic.text || x.topic.text == "" || y.topic.text == "")
    && (x.createdAt < y.createdAt ==> Unprivileged(y)) && (y.createdAt < x.createdAt ==> Unprivileged(x))
  }

  /** Two copies that agree on all that a burst sends: what MODE lines set, and the topic. */
  ghost predicate CopiesAgree(w: WorldState, p: ChanState, v: WorldState, q: ChanState) {
    Agree(w, p, v, q) && p.topic.text == q.topic.text
  }

  function ViewOf(m: Membership): Option<(bool, bool)> {
    Some((m.op, m.voice))
  }

  /** How node `w`, the home of `x`, sees one of its own members after taking `y` in. */
  lemma OwnView(a: WorldState, x: ChanState, w: WorldState, y: ChanState, cid: map<UserID, UserID>, after: ChanState,
                id: UserID, n: string)
    requires KeepsMembers(a, x, w) && Merges(y, x, cid, after) && id in x.members
    requires n != "" && w.Key(n) == w.Key(a.users[id].nick)
    ensures MemberView(w, after, n) == ViewOf(if x.TSIsOlder(y.createdAt) then NO_FLAGS else x.members[id])
  {
    HolderFound(w, id, n);
    assert id in after.members.Keys;
  }

  /** How the other node sees that member. */
  lemma CopyView(a: WorldState, x: ChanState, v: WorldState, y: ChanState, cid: map<UserID, UserID>, after: ChanState,
                 id: UserID, n: string)
    requires Linked(a, v, cid) && Merges(x, y, cid, after) && id in x.members && id in cid && Ordinary(x)
    requires n != "" && v.Key(n) == v.Key(a.users[id].nick)
    ensures MemberView(v, after, n) == ViewOf(x.members[id])
  {
    assert Known(v, a.users[id]);
    assert cid[id] in CopiedMembers(x, cid);
    assert cid[id] in after.members.Keys;
  }

  /** Both nodes' views of a nick that folds like that of a member of `x`. */
  lemma ViewsOfMember(a: WorldState, x: ChanState, w: WorldState, y: ChanState, v: WorldState,
                      cidX: map<UserID, UserID>,
                      cidY: map<UserID, UserID>, afterW: ChanState, afterV: ChanState, id: UserID, n: string)
    requires KeepsMembers(a, x, w) && Linked(a, v, cidX) && w.mapping == v.mapping == a.mapping && Ordinary(x)
    requires Merges(y, x, cidY, afterW) && Merges(x, y, cidX, afterV) && id in x.members
    requires n != "" && w.Key(n) == w.Key(a.users[id].nick)
    ensures MemberView(w, afterW, n) == MemberView(v, afterV, n) <==>
              (x.TSIsOlder(y.createdAt) ==> !x.members[id].op && !x.members[id].voice)
  {
    assert IsLocal(a, id);
    OwnView(a, x, w, y, cidY, afterW, id, n);
    CopyView(a, x, v, y, cidX, afterV, id, n);
  }

  /** The nick folds like that of a member of `x`, a user of node `a`. */
  ghost predicate OfMember(a: WorldState, x: ChanState, n: string) {
    n != "" && exists id :: id in x.members && id in a.users && a.Key(n) == a.Key(a.users[id].nick)
  }

  /** Whoever node `w` sees in the merged channel is a member of `x` or the copy of a member of `y`. */
  lemma SeenIsMember(a: WorldState, x: ChanState, w: WorldState, b: WorldState, y: ChanState, cidY: map<UserID, UserID>,
                     after: ChanState, n: string)
    requires KeepsMembers(a, x, w) && Linked(b, w, cidY) && Merges(y, x, cidY, after) && MemberView(w, after, n).Some?
    requires a.mapping == b.mapping == w.mapping
    ensures OfMember(a, x, n) || OfMember(b, y, n)
  {
    FoundHasKey(w, n);
    var u := w.FindByNick(n).value;
    assert u.id in after.members.Keys;
    if u.id in x.members {
      assert w.Key(n) == w.Key(a.users[u.id].nick);
    } else {
      assert u.id in CopiedMembers(y, cidY);
      var id :| id in y.members && id in cidY && cidY[id] == u.id;
      assert Known(w, b.users[id]);
      FoundHasKey(w, b.users[id].nick);
      assert w.Key(n) == w.Key(b.users[id].nick);
    }
  }

  /** Nodes `a` and `b` shared a channel, as `x` and `y`, with only their own users in it. `w` and `v` are the
      two nodes after the other's users arrived. */
  ghost predicate Meets(a: WorldState, x: ChanState, w: WorldState, b: WorldState, y: ChanState, v: WorldState,
                        cidX: map<UserID, UserID>, cidY: map<UserID, UserID>)
  {
    && KeepsMembers(a, x, w) && KeepsMembers(b, y, v) && Linked(a, v, cidX) && Linked(b, w, cidY)
    && a.mapping == b.mapping == w.mapping == v.mapping && Ordinary(x) && Ordinary(y)
  }

  lemma SettingsMeet(x: ChanState, y: ChanState, cidX: map<UserID, UserID>, cidY: map<UserID, UserID>,
                     afterW: ChanState, afterV: ChanState)
    requires Merges(y, x, cidY, afterW) && Merges(x, y, cidX, afterV) && x.limit >= 0 && y.limit >= 0
    ensures SameSettings(afterW, afterV) <==>
              && (x.key == y.key || x.key == "" || y.key == "")
              && (x.limit == y.limit || x.limit == 0 || y.limit == 0)
  {
    assert x.lists.bans.Keys + y.lists.bans.Keys == y.lists.bans.Keys + x.lists.bans.Keys;
  }

  lemma ViewsMeetAt(a: WorldState, x: ChanState, w: WorldState, y: ChanState, v: WorldState,
                    cidX: map<UserID, UserID>, cidY: map<UserID, UserID>, afterW: ChanState, afterV: ChanState,
                    n: string)
    requires KeepsMembers(a, x, w) && Linked(a, v, cidX) && w.mapping == v.mapping == a.mapping && Ordinary(x)
    requires Merges(y, x, cidY, afterW) && Merges(x, y, cidX, afterV)
    requires OfMember(a, x, n) && (x.TSIsOlder(y.createdAt) ==> Unprivileged(x))
    ensures MemberView(w, afterW, n) == MemberView(v, afterV, n)
  {
    hide Merges, MemberView, KeepsMembers, Linked, Ordinary;
    var id :| id in x.members && id in a.users && a.Key(n) == a.Key(a.users[id].nick);
    ViewsOfMember(a, x, w, y, v, cidX, cidY, afterW, afterV, id, n);
  }

  lemma ViewsMeet(a: WorldState, x: ChanState, w: WorldState, b: WorldState, y: ChanState, v: WorldState,
                  cidX: map<UserID, UserID>, cidY: map<UserID, UserID>, afterW: ChanState, afterV: ChanState, n: string)
    requires Meets(a, x, w, b, y, v, cidX, cidY) && Merges(y, x, cidY, afterW) && Merges(x, y, cidX, afterV)
    requires x.createdAt < y.createdAt ==> Unprivileged(y)
    requires y.createdAt < x.createdAt ==> Unprivileged(x)
    ensures MemberView(w, afterW, n) == MemberView(v, afterV, n)
  {
    hide Merges, MemberView, KeepsMembers, Linked, OfMember, Unprivileged, Ordinary;
    if MemberView(w, afterW, n).Some? {
      SeenIsMember(a, x, w, b, y, cidY, afterW, n);
    }
    if MemberView(v, afterV, n).Some? {
      SeenIsMember(b, y, v, a, x, cidX, afterV, n);
    }
    if OfMember(a, x, n) {
      ViewsMeetAt(a, x, w, y, v, cidX, cidY, afterW, afterV, n);
    } else if OfMember(b, y, n) {
      ViewsMeetAt(b, y, v, x, w, cidY, cidX, afterV, afterW, n);
    }
  }

  /** Agreeing views show that the members of the younger channel had no flags to lose. */
  lemma ViewsTell(a: WorldState, x: ChanState, w: WorldState, y: ChanState, v: WorldState, cidX: map<UserID, UserID>,
                  cidY: map<UserID, UserID>, afterW: ChanState, afterV: ChanState)
    requires KeepsMembers(a, x, w) && Linked(a, v, cidX) && w.mapping == v.mapping == a.mapping && Ordinary(x)
    requires Merges(y, x, cidY, afterW) && Merges(x, y, cidX, afterV) && SameViews(w, afterW, v, afterV)
    requires 0 < y.createdAt < x.createdAt
    ensures Unprivileged(x)
  {
    forall id | id in x.members ensures !x.members[id].op && !x.members[id].voice {
      var n := a.users[id].nick;
      assert MemberView(w, afterW, n) == MemberView(v, afterV, n);
      ViewsOfMember(a, x, w, y, v, cidX, cidY, afterW, afterV, id, n);
    }
  }

  lemma ReversedViews(w: WorldState, p: ChanState, v: WorldState, q: ChanState)
    requires SameViews(w, p, v, q)
    ensures SameViews(v, q, w, p)
  {
    forall n: string ensures MemberView(v, q, n) == MemberView(w, p, n) {
      assert MemberView(w, p, n) == MemberView(v, q, n);
    }
  }

  /** Each node takes over the other's topic, and the older timestamp of the two. */
  lemma TopicsMeet(x: ChanState, y: ChanState, cidX: map<UserID, UserID>, cidY: map<UserID, UserID>,
                   afterW: ChanState, afterV: ChanState)
    requires Merges(y, x, cidY, afterW) && Merges(x, y, cidX, afterV) && x.createdAt > 0 && y.createdAt > 0
    ensures afterW.topic.text == afterV.topic.text <==>
              x.topic.text == y.topic.text || x.topic.text == "" || y.topic.text == ""
    ensures x.topic.text != "" && y.topic.text != "" ==>
              afterW.topic.text == y.topic.text && afterV.topic.text == x.topic.text
    ensures afterW.createdAt == afterV.createdAt == if x.createdAt < y.createdAt then x.createdAt else y.createdAt
  {
  }

  /** The merged copies agree if and only if what they started from is compatible. */
  lemma MergedCopiesAgree(a: WorldState, x: ChanState, w: WorldState, b: WorldState, y: ChanState, v: WorldState,
                          cidX: map<UserID, UserID>, cidY: map<UserID, UserID>, afterW: ChanState, afterV: ChanState)
    requires Meets(a, x, w, b, y, v, cidX, cidY) && Merges(y, x, cidY, afterW) && Merges(x, y, cidX, afterV)
    ensures CopiesAgree(w, afterW, v, afterV) <==> Compatible(x, y)
    ensures afterW.createdAt == afterV.createdAt
  {
    hide Merges, MemberView, KeepsMembers, Linked, SameSettings;
    SettingsMeet(x, y, cidX, cidY, afterW, afterV);
    TopicsMeet(x, y, cidX, cidY, afterW, afterV);
    if Compatible(x, y) {
      forall n: string ensures MemberView(w, afterW, n) == MemberView(v, afterV, n) {
        ViewsMeet(a, x, w, b, y, v, cidX, cidY, afterW, afterV, n);
      }
    } else if SameViews(w, afterW, v, afterV) {
      ReversedViews(w, afterW, v, afterV);
      if y.createdAt < x.createdAt {
        ViewsTell(a, x, w, y, v, cidX, cidY, afterW, afterV);
      }
      if x.createdAt < y.createdAt {
        ViewsTell(b, y, v, x, w, cidY, cidX, afterV, afterW);
      }
    }
  }

  /** The copies of the other node's users are none of the members there were. */
  lemma CopiesAreNew(a: WorldState, x: ChanState, w: WorldState, b: WorldState, cidY: map<UserID, UserID>)
    requires KeepsMembers(a, x, w) && Linked(b, w, cidY)
    ensures forall j :: j in cidY ==> cidY[j] !in x.members
  {
    forall j | j in cidY ensures cidY[j] !in x.members {
      assert Known(w, b.users[j]);
      FoundHasKey(w, b.users[j].nick);
    }
  }

  /** One node's half of the exchange. */
  lemma HalfMeets(a: WorldState, x: ChanState, w: WorldState, b: WorldState, y: ChanState, cidY: map<UserID, UserID>,
                  o: ChanOrder, server: string, local: string, peer: string, clock: nat -> Int64, k: nat)
    returns (after: ChanState)
    requires KeepsMembers(a, x, w) && Linked(b, w, cidY) && OrdersChan(o, y) && "" !in y.lists.bans
    requires Ordinary(y) && Names(w, y.name, x) && HasLocal(b, y)
    ensures RunAll(Step(local, peer, clock), Put(w, x), ChanLines(b, server, y, o), k) == Put(w, after)
    ensures Merges(y, x, cidY, after)
  {
    CopiesAreNew(a, x, w, b, cidY);
    StepHandlesJoinsOnto(local, peer, clock);
    StepHandlesChannels(local, peer, server, clock);
    after := ChannelMerges(b, y, cidY, o, w, x, server, Step(local, peer, clock), clock, k);
  }

  /** Two nodes that both have a channel, each with its own users in it, replay each other's lines for it. The
      copies have the same timestamp afterwards, and agree on members, flags, modes, key, limit, bans and topic if
      and only if at most one of them had a key, or both the same, likewise for the limit and the topic, and the
      younger channel, if one is younger, had no operator and nobody with a voice. */
  lemma SharedChannelAgrees(a: WorldState, x: ChanState, w: WorldState, b: WorldState, y: ChanState, v: WorldState,
                            cidX: map<UserID, UserID>, cidY: map<UserID, UserID>, oX: ChanOrder, oY: ChanOrder,
                            nameA: string, nameB: string, clockA: nat -> Int64, clockB: nat -> Int64, i: nat, j: nat)
    returns (afterW: ChanState, afterV: ChanState)
    requires Meets(a, x, w, b, y, v, cidX, cidY) && OrdersChan(oX, x) && OrdersChan(oY, y)
    requires "" !in x.lists.bans && "" !in y.lists.bans && a.Key(x.name) == a.Key(y.name)
    ensures RunAll(Step(nameA, nameB, clockA), Put(w, x), ChanLines(b, nameB, y, oY), i) == Put(w, afterW)
    ensures RunAll(Step(nameB, nameA, clockB), Put(v, y), ChanLines(a, nameA, x, oX), j) == Put(v, afterV)
    ensures CopiesAgree(w, afterW, v, afterV) <==> Compatible(x, y)
    ensures afterW.createdAt == afterV.createdAt
  {
    BothHaveMembers(a, x, w, b, y, v);
    afterW := HalfMeets(a, x, w, b, y, cidY, oY, nameB, nameA, nameB, clockA, i);
    afterV := HalfMeets(b, y, v, a, x, cidX, oX, nameA, nameB, nameA, clockB, j);
    MergedCopiesAgree(a, x, w, b, y, v, cidX, cidY, afterW, afterV);
  }

  lemma BothHaveMembers(a: WorldState, x: ChanState, w: WorldState, b: WorldState, y: ChanState, v: WorldState)
    requires KeepsMembers(a, x, w) && KeepsMembers(b, y, v)
    ensures HasLocal(a, x) && HasLocal(b, y)
  {
    var i :| i in x.members;
    var j :| j in y.members;
    assert IsLocal(a, i) && IsLocal(b, j);
  }
}
