/** The theorem about whole bursts. */
module BurstTheorem {
  import opened Prelude
  import opened Numbers
  import opened Message
  import opened State
  import opened FedSpec
  import opened BurstShape
  import opened BurstUsers
  import opened BurstChannels
  import opened BurstReplay
  import opened BurstFrame
  import opened ChannelMerge

  // ----- all channels -----

  /** The receiving node's channel `dst` is a standard one with members, none of them a copy of the sender's
      users. */
  ghost predicate CanMerge(src: ChanState, dst: ChanState, cid: map<UserID, UserID>) {
    IsStandard(src.name) && dst.members != map[] && forall x :: x in cid ==> cid[x] !in dst.members
  }

  /** What the receiving node makes of the sender's channel `src`, filed under `c`: a replica if it had no such
      channel, and otherwise, if the two can be merged, what ChannelMerge says. */
  ghost predicate TakesIn(src: ChanState, cid: map<UserID, UserID>, w: WorldState, after: WorldState, c: string) {
    && c in after.chans
    && if c !in w.chans then IsReplica(src, cid, after.chans[c])
       else
         && after.chans[c].name == w.chans[c].name
         && (CanMerge(src, w.chans[c], cid) ==> Merges(src, w.chans[c], cid, after.chans[c]))
  }

  ghost predicate KeepsChan(w: WorldState, after: WorldState, c: string) {
    (c in after.chans <==> c in w.chans) && (c in w.chans ==> after.chans[c] == w.chans[c])
  }

  /** What is filed under channel key `c` after the channels `chans` of the sender arrived. */
  ghost predicate GainedChanAt(a: WorldState, cid: map<UserID, UserID>, chans: seq<string>, w: WorldState,
                               after: WorldState, c: string)
  {
    if c in chans && c in a.chans && HasLocal(a, a.chans[c]) then TakesIn(a.chans[c], cid, w, after, c)
    else KeepsChan(w, after, c)
  }

  ghost predicate GainedChans(a: WorldState, cid: map<UserID, UserID>, chans: seq<string>, w: WorldState,
                              after: WorldState)
  {
    && after == w.(chans := after.chans)
    && forall c: string :: GainedChanAt(a, cid, chans, w, after, c)
  }

  /** Every channel is filed under its name. */
  ghost predicate Filed(w: WorldState) {
    forall c :: c in w.chans ==> w.Key(w.chans[c].name) == c
  }

  lemma LinkedIgnoresChannels(a: WorldState, w: WorldState, after: WorldState, cid: map<UserID, UserID>)
    requires Linked(a, w, cid) && after == w.(chans := after.chans)
    ensures Linked(a, after, cid)
  {
    forall id | id in cid ensures Known(after, a.users[id]) && after.FindByNick(a.users[id].nick).value.id == cid[id] {
      assert Known(w, a.users[id]);
      assert after.FindByNick(a.users[id].nick) == w.FindByNick(a.users[id].nick);
    }
  }

  /** The sender's channel `c` can be sent. */
  ghost predicate Sends(a: WorldState, inside: map<string, ChanOrder>, w: WorldState, clock: nat -> Int64, c: string) {
    && c in a.chans && c in inside && OrdersChan(inside[c], a.chans[c])
    && a.chans[c].name != "" && w.Key(a.chans[c].name) == c
    && 0 < a.chans[c].createdAt && Later(clock, a.chans[c].createdAt) && "" !in a.chans[c].lists.bans
  }

  /** What a node must do with the lines of channels. */
  ghost predicate HandlesChannels(step: Stepper, server: string, clock: nat -> Int64) {
    && HandlesJoins(step, clock) && HandlesTopics(step, server, clock) && HandlesModes(step, server, clock)
    && HandlesJoinsOnto(step) && ChangesOne(step)
  }

  /** A world in which only what is filed under `c` has changed, and is filed under its name. */
  ghost predicate OthersKept(w: WorldState, mid: WorldState, c: string) {
    && mid == w.(chans := mid.chans) && (forall x: string :: x != c ==> KeepsChan(w, mid, x))
    && c in mid.chans && w.Key(mid.chans[c].name) == c
  }

  lemma PutKeepsOthers(w: WorldState, ch: ChanState)
    ensures OthersKept(w, Put(w, ch), w.Key(ch.name))
  {
  }

  lemma OnlyChanKeepsOthers(w: WorldState, mid: WorldState, c: string)
    requires OnlyChan(w, mid, c) && Filed(w)
    ensures OthersKept(w, mid, c)
  {
  }

  lemma OneGained(a: WorldState, cid: map<UserID, UserID>, c: string, w: WorldState, mid: WorldState)
    requires Filed(w) && OthersKept(w, mid, c) && c in a.chans && HasLocal(a, a.chans[c])
    requires TakesIn(a.chans[c], cid, w, mid, c)
    ensures GainedChans(a, cid, [c], w, mid) && Filed(mid)
  {
    forall x: string
      ensures GainedChanAt(a, cid, [c], w, mid, x) && (x in mid.chans ==> mid.Key(mid.chans[x].name) == x)
    {
      assert x != c ==> KeepsChan(w, mid, x);
    }
  }

  lemma NewChannelArrives(a: WorldState, cid: map<UserID, UserID>, c: string, inside: map<string, ChanOrder>,
                          w: WorldState, server: string, step: Stepper, clock: nat -> Int64, k: nat)
    returns (mid: WorldState)
    requires Linked(a, w, cid) && HandlesChannels(step, server, clock)
    requires Sends(a, inside, w, clock, c) && HasLocal(a, a.chans[c]) && c !in w.chans
    ensures RunAll(step, w, ChanLines(a, server, a.chans[c], inside[c]), k) == mid
    ensures OthersKept(w, mid, c) && TakesIn(a.chans[c], cid, w, mid, c)
  {
    hide Linked, HandlesJoins, HandlesTopics, HandlesModes, HandlesJoinsOnto, IsReplica, ChangesOne, OrdersChan,
      OthersKept, HasLocal;
    var after := ChannelArrives(a, a.chans[c], cid, inside[c], w, server, step, clock, k);
    ReplicaKeepsName(a.chans[c], cid, after);
    mid := Put(w, after);
    PutKeepsOthers(w, after);
  }

  lemma ReplicaKeepsName(src: ChanState, cid: map<UserID, UserID>, after: ChanState)
    requires IsReplica(src, cid, after)
    ensures after.name == src.name
  {
  }

  lemma SharedChannelArrives(a: WorldState, cid: map<UserID, UserID>, c: string, inside: map<string, ChanOrder>,
                             w: WorldState, server: string, step: Stepper, clock: nat -> Int64, k: nat)
    returns (mid: WorldState)
    requires Linked(a, w, cid) && HandlesChannels(step, server, clock) && Filed(w)
    requires Sends(a, inside, w, clock, c) && HasLocal(a, a.chans[c]) && c in w.chans
    ensures RunAll(step, w, ChanLines(a, server, a.chans[c], inside[c]), k) == mid
    ensures OthersKept(w, mid, c) && TakesIn(a.chans[c], cid, w, mid, c)
  {
    hide Linked, HandlesJoins, HandlesTopics, HandlesModes, HandlesJoinsOnto, Merges, ChangesOne, OrdersChan,
      HasLocal, OnlyChan;
    var src, dst := a.chans[c], w.chans[c];
    if CanMerge(src, dst, cid) {
      assert w == Put(w, dst);
      var after := ChannelMerges(a, src, cid, inside[c], w, dst, server, step, clock, k);
      mid := Put(w, after);
      MergeKeepsName(src, dst, cid, after);
      PutKeepsOthers(w, after);
    } else {
      mid := ChannelStays(a, c, inside, w, server, step, clock, k);
    }
  }

  lemma ChannelStays(a: WorldState, c: string, inside: map<string, ChanOrder>, w: WorldState, server: string,
                     step: Stepper, clock: nat -> Int64, k: nat)
    returns (mid: WorldState)
    requires ChangesOne(step) && Filed(w) && Sends(a, inside, w, clock, c) && c in w.chans
    ensures RunAll(step, w, ChanLines(a, server, a.chans[c], inside[c]), k) == mid
    ensures OthersKept(w, mid, c) && mid.chans[c].name == w.chans[c].name
  {
    hide ChangesOne;
    var src := a.chans[c];
    mid := RunAll(step, w, ChanLines(a, server, src, inside[c]), k);
    LinesConcern(a, server, src, inside[c]);
    RunChangesOne(step, w, ChanLines(a, server, src, inside[c]), src.name, k);
    OnlyChanKeepsOthers(w, mid, c);
  }

  lemma MergeKeepsName(src: ChanState, dst: ChanState, cid: map<UserID, UserID>, after: ChanState)
    requires Merges(src, dst, cid, after)
    ensures after.name == dst.name
  {
  }

  lemma OneChannelArrives(a: WorldState, cid: map<UserID, UserID>, c: string, rest: seq<string>,
                          inside: map<string, ChanOrder>, w: WorldState,
                          server: string, step: Stepper, clock: nat -> Int64, k: nat) returns (mid: WorldState)
    requires Linked(a, w, cid) && HandlesChannels(step, server, clock) && Filed(w)
    requires Sends(a, inside, w, clock, c) && c !in rest && forall x :: x in rest ==> Sends(a, inside, w, clock, x)
    ensures RunAll(step, w, ChanLines(a, server, a.chans[c], inside[c]), k) == mid
    ensures GainedChans(a, cid, [c], w, mid) && Linked(a, mid, cid) && Filed(mid)
    ensures forall x :: x in rest ==> Sends(a, inside, mid, clock, x)
  {
    hide Linked, HandlesChannels, Filed;
    if !HasLocal(a, a.chans[c]) {
      NoLines(a, server, a.chans[c], inside[c]);
      mid := w;
    } else if c in w.chans {
      mid := SharedChannelArrives(a, cid, c, inside, w, server, step, clock, k);
      OneGained(a, cid, c, w, mid);
    } else {
      mid := NewChannelArrives(a, cid, c, inside, w, server, step, clock, k);
      OneGained(a, cid, c, w, mid);
    }
    LinkedIgnoresChannels(a, w, mid, cid);
    forall x | x in rest ensures Sends(a, inside, mid, clock, x) {
      assert Sends(a, inside, w, clock, x);
    }
  }

  lemma GainedChansCompose(a: WorldState, cid: map<UserID, UserID>, c: string, rest: seq<string>, w: WorldState,
                           mid: WorldState, after: WorldState)
    requires GainedChans(a, cid, [c], w, mid) && GainedChans(a, cid, rest, mid, after) && c !in rest
    ensures GainedChans(a, cid, [c] + rest, w, after)
  {
    forall x: string ensures GainedChanAt(a, cid, [c] + rest, w, after, x) {
      assert GainedChanAt(a, cid, [c], w, mid, x) && GainedChanAt(a, cid, rest, mid, after, x);
    }
  }

  lemma {:induction false} ChannelsArrive(a: WorldState, cid: map<UserID, UserID>, chans: seq<string>,
                                          inside: map<string, ChanOrder>, w: WorldState,
                                          server: string, step: Stepper, clock: nat -> Int64,
                                          k: nat) returns (after: WorldState)
    requires Linked(a, w, cid) && HandlesChannels(step, server, clock) && Filed(w)
    requires NoDups(chans) && forall c :: c in chans ==> Sends(a, inside, w, clock, c)
    ensures RunAll(step, w, AllChanLines(a, server, chans, inside), k) == after
    ensures GainedChans(a, cid, chans, w, after) && Filed(after)
    decreases |chans|
  {
    after := w;
    if chans != [] {
      var c, rest := chans[0], chans[1..];
      assert Sends(a, inside, w, clock, c);
      var first, more := ChanLines(a, server, a.chans[c], inside[c]), AllChanLines(a, server, rest, inside);
      assert chans == [c] + rest;
      var mid := OneChannelArrives(a, cid, c, rest, inside, w, server, step, clock, k);
      after := ChannelsArrive(a, cid, rest, inside, mid, server, step, clock, k + |first|);
      RunThen(step, w, mid, after, first, more, k);
      GainedChansCompose(a, cid, c, rest, w, mid, after);
    }
  }

  // ----- the whole burst -----

  lemma LinkArrived(a: WorldState, server: string, ids: seq<UserID>, w: WorldState, after: WorldState)
    returns (cid: map<UserID, UserID>)
    requires Sendable(a) && w.Valid() && a.mapping == w.mapping && ServerName(server)
    requires FreeFor(a, w, ids) && (forall id :: id in a.users ==> id in ids) && GainedUsers(a, server, ids, w, after)
    ensures Linked(a, after, cid)
  {
    forall id | IsLocal(a, id) ensures Known(after, a.users[id]) && after.Key(a.users[id].nick) in after.nicks
                                       && after.FindByNick(a.users[id].nick).value.id
                                          == after.nicks[after.Key(a.users[id].nick)] {
      var n := a.users[id].nick;
      assert GainedAt(a, server, ids, w, after, n);
      HolderFound(a, id, n);
      FoundHasKey(after, n);
    }
    cid := map id | id in a.users && IsLocal(a, id) :: after.nicks[after.Key(a.users[id].nick)];
    forall x, y | x in cid && y in cid && cid[x] == cid[y] ensures x == y {
      assert after.Key(a.users[x].nick) == after.Key(a.users[y].nick);
      assert a.nicks[a.Key(a.users[x].nick)] == x && a.nicks[a.Key(a.users[y].nick)] == y;
    }
  }

  /** Who holds nick `n` on the receiving node after the burst. */
  ghost predicate ReceivedNick(a: WorldState, server: string, w: WorldState, after: WorldState, n: string) {
    var before, now, there := w.FindByNick(n), after.FindByNick(n), a.FindByNick(n);
    if before.Some? then now == before
    else if there.Some? && !there.value.IsRemote() then now.Some? && IsCopy(now.value, there.value, server)
    else now.None?
  }

  /** The receiving node's channel `dst` is a standard one, and has members, all of them users. */
  ghost predicate Mergeable(src: ChanState, w: WorldState, dst: ChanState) {
    IsStandard(src.name) && dst.members != map[] && dst.members.Keys <= w.users.Keys
  }

  /** What is filed under channel key `c` on the receiving node after the burst. Only channels with a local
      member are sent. One that the node had already is merged, if it is a standard one with members. */
  ghost predicate ReceivedChan(a: WorldState, cid: map<UserID, UserID>, w: WorldState, after: WorldState, c: string) {
    if c !in a.chans || !HasLocal(a, a.chans[c]) then KeepsChan(w, after, c)
    else
      && c in after.chans
      && if c !in w.chans then IsReplica(a.chans[c], cid, after.chans[c])
         else
           && after.chans[c].name == w.chans[c].name
           && (Mergeable(a.chans[c], w, w.chans[c]) ==> Merges(a.chans[c], w.chans[c], cid, after.chans[c]))
  }

  ghost predicate Received(a: WorldState, server: string, w: WorldState, after: WorldState, cid: map<UserID, UserID>) {
    && after.Valid() && Linked(a, after, cid) && after.mapping == w.mapping
    && (forall id :: id in w.users ==> id in after.users && after.users[id] == w.users[id])
    && (forall n: string :: ReceivedNick(a, server, w, after, n))
    && (forall c: string :: ReceivedChan(a, cid, w, after, c))
  }

  /** No nick of the sender's is taken on the receiving node. */
  ghost predicate NoClash(a: WorldState, w: WorldState) {
    a.mapping == w.mapping && forall id :: id in a.users ==> w.FindByNick(a.users[id].nick).None?
  }

  lemma AllSent(a: WorldState, o: Order, w: WorldState, mid: WorldState, clock: nat -> Int64)
    requires Sendable(a) && Orders(o, a) && NoClash(a, w) && mid.mapping == w.mapping
    requires forall c :: c in a.chans ==> Later(clock, a.chans[c].createdAt)
    ensures forall c :: c in o.chans ==> Sends(a, o.inside, mid, clock, c)
  {
  }

  lemma ReceivedNicks(a: WorldState, server: string, ids: seq<UserID>, w: WorldState, mid: WorldState,
                      after: WorldState)
    requires a.Valid() && (forall id :: id in a.users ==> id in ids)
    requires GainedUsers(a, server, ids, w, mid) && after == mid.(chans := after.chans)
    ensures forall n: string :: ReceivedNick(a, server, w, after, n)
  {
    forall n: string ensures ReceivedNick(a, server, w, after, n) {
      assert GainedAt(a, server, ids, w, mid, n);
      assert after.FindByNick(n) == mid.FindByNick(n);
      if a.FindByNick(n).Some? {
        FoundHasKey(a, n);
      }
    }
  }

  /** The copies of the sender's users are new users. */
  lemma CopiesAreNewUsers(a: WorldState, server: string, ids: seq<UserID>, w: WorldState, mid: WorldState,
                          cid: map<UserID, UserID>)
    requires Sendable(a) && w.Valid() && NoClash(a, w) && GainedUsers(a, server, ids, w, mid) && Linked(a, mid, cid)
    ensures forall x :: x in cid ==> cid[x] !in w.users
  {
    hide GainedAt, WorldState.Valid;
    forall x | x in cid ensures cid[x] !in w.users {
      assert Known(mid, a.users[x]);
      FoundHasKey(mid, a.users[x].nick);
      if cid[x] in w.users {
        HolderFound(w, cid[x], a.users[x].nick);
      }
    }
  }

  lemma ReceivedChans(a: WorldState, cid: map<UserID, UserID>, chans: seq<string>, w: WorldState, mid: WorldState,
                      after: WorldState)
    requires mid.Valid() && Filed(after) && mid.chans == w.chans && forall x :: x in cid ==> cid[x] !in w.users
    requires (forall c :: c in a.chans ==> c in chans) && GainedChans(a, cid, chans, mid, after)
    ensures after.Valid()
    ensures forall c: string :: ReceivedChan(a, cid, w, after, c)
  {
    SameUsersValid(mid, after);
    forall c: string ensures ReceivedChan(a, cid, w, after, c) {
      assert GainedChanAt(a, cid, chans, mid, after, c);
    }
  }

  lemma ReceivedAll(a: WorldState, server: string, o: Order, w: WorldState, mid: WorldState, after: WorldState,
                    cid: map<UserID, UserID>)
    requires Sendable(a) && Orders(o, a) && w.Valid() && NoClash(a, w) && Filed(after)
    requires GainedUsers(a, server, o.users, w, mid) && Linked(a, mid, cid) && GainedChans(a, cid, o.chans, mid, after)
    ensures Received(a, server, w, after, cid)
  {
    CopiesAreNewUsers(a, server, o.users, w, mid, cid);
    LinkedIgnoresChannels(a, mid, after, cid);
    ReceivedNicks(a, server, o.users, w, mid, after);
    ReceivedChans(a, cid, o.chans, w, mid, after);
  }

  lemma UserHalf(a: WorldState, server: string, o: Order, w: WorldState, step: Stepper, clock: nat -> Int64)
    returns (mid: WorldState, cid: map<UserID, UserID>)
    requires Sendable(a) && Orders(o, a) && ServerName(server) && w.Valid() && NoClash(a, w)
    requires (forall c :: c in a.chans ==> Later(clock, a.chans[c].createdAt)) && FilesUsers(step, server, clock)
    ensures RunAll(step, w, UserLines(a, server, o.users), 0) == mid
    ensures GainedUsers(a, server, o.users, w, mid) && Linked(a, mid, cid)
    ensures forall c :: c in o.chans ==> Sends(a, o.inside, mid, clock, c)
  {
    assert FreeFor(a, w, o.users);
    mid := UsersArrive(a, server, o.users, w, step, clock, 0);
    cid := LinkArrived(a, server, o.users, w, mid);
    AllSent(a, o, w, mid, clock);
  }

  /** The theorem for any step function that handles the three kinds of lines. */
  lemma BurstRuns(a: WorldState, server: string, o: Order, w: WorldState, step: Stepper, clock: nat -> Int64)
    returns (after: WorldState, cid: map<UserID, UserID>)
    requires Sendable(a) && Orders(o, a) && ServerName(server) && w.Valid() && NoClash(a, w)
    requires (forall c :: c in a.chans ==> Later(clock, a.chans[c].createdAt)) && FilesUsers(step, server, clock)
    requires HandlesChannels(step, server, clock)
    ensures after == RunAll(step, w, BurstLines(a, server, o), 0)
    ensures Received(a, server, w, after, cid)
  {
    var users, chans := UserLines(a, server, o.users), AllChanLines(a, server, o.chans, o.inside);
    var mid;
    mid, cid := UserHalf(a, server, o, w, step, clock);
    after := ChannelsArrive(a, cid, o.chans, o.inside, mid, server, step, clock, |users|);
    RunHalves(step, w, mid, after, users, chans);
    ReceivedAll(a, server, o, w, mid, after, cid);
  }

  // ----- nothing is sent back -----

  type Check = (WorldState, Message, nat) -> bool

  ghost predicate SilentOnUsers(ok: Check, server: string) {
    forall w: WorldState, u: UserState, k: nat :: w.FindByNick(u.nick).None? ==> ok(w, UserLine(u, server), k)
  }

  ghost predicate SilentOnChannels(ok: Check) {
    forall w: WorldState, m: Message, k: nat :: AboutChannels(m) ==> ok(w, m, k)
  }

  lemma HandlesSilently(local: string, peer: string, server: string, clock: nat -> Int64)
    requires ServerName(server)
    ensures SilentOnUsers(Silent(local, peer, clock), server) && SilentOnChannels(Silent(local, peer, clock))
  {
    forall w: WorldState, u: UserState, k: nat | w.FindByNick(u.nick).None?
      ensures Silent(local, peer, clock)(w, UserLine(u, server), k)
    {
      UserLineEffect(w, local, peer, u, server, clock(k));
    }
    forall w: WorldState, m: Message, k: nat | AboutChannels(m)
      ensures Silent(local, peer, clock)(w, m, k)
    {
      ChannelVerbsKeepUsers(w, local, peer, m, clock(k));
    }
  }

  lemma {:induction false} UserLinesUnanswered(a: WorldState, server: string, ids: seq<UserID>, w: WorldState,
                                               step: Stepper, ok: Check, clock: nat -> Int64, k: nat)
    requires a.Valid() && w.Valid() && a.mapping == w.mapping && FilesUsers(step, server, clock)
    requires NoDups(ids) && FreeFor(a, w, ids) && SilentOnUsers(ok, server)
    ensures Throughout(step, ok, w, UserLines(a, server, ids), k)
    decreases |ids|
  {
    if ids != [] {
      var id, rest := ids[0], ids[1..];
      var first, more := UserLinesOf(a, server, id), UserLines(a, server, rest);
      assert ids == [id] + rest;
      var mid := OneUserArrives(a, server, id, rest, w, step, clock, k);
      if IsLocal(a, id) {
        ThroughoutOne(step, ok, w, UserLine(a.users[id], server), k);
      }
      UserLinesUnanswered(a, server, rest, mid, step, ok, clock, k + |first|);
      ThroughoutBoth(step, ok, w, first, more, k);
    }
  }

  lemma ChannelLinesUnanswered(a: WorldState, server: string, o: Order, w: WorldState, step: Stepper, ok: Check, k: nat)
    requires Orders(o, a) && SilentOnChannels(ok)
    ensures Throughout(step, ok, w, AllChanLines(a, server, o.chans, o.inside), k)
  {
    var msgs := AllChanLines(a, server, o.chans, o.inside);
    ChannelHalf(a, server, o);
    ThroughoutAlways(step, ok, w, msgs, k);
  }

  lemma BurstIsUnanswered(a: WorldState, server: string, o: Order, w: WorldState, step: Stepper, ok: Check,
                          clock: nat -> Int64)
    requires a.Valid() && Orders(o, a) && w.Valid() && NoClash(a, w) && FilesUsers(step, server, clock)
    requires SilentOnUsers(ok, server) && SilentOnChannels(ok)
    ensures Throughout(step, ok, w, BurstLines(a, server, o), 0)
  {
    var users, chans := UserLines(a, server, o.users), AllChanLines(a, server, o.chans, o.inside);
    UserLinesUnanswered(a, server, o.users, w, step, ok, clock, 0);
    var mid := RunAll(step, w, users, 0);
    ChannelLinesUnanswered(a, server, o, mid, step, ok, |users|);
    ThroughoutHalves(step, ok, w, mid, users, chans);
  }

  /** A peer on which no nick of the sender's is taken, and whose clock is past every channel timestamp, replays
      the sender's burst. It gains exactly the sender's local users, a replica of every channel with a local
      member that it did not have, and the merged state of every standard one that it had. It keeps all its
      users, and every channel that is not sent as it was. It sends nothing back and cuts no connection. */
  lemma BurstIsFaithful(a: WorldState, server: string, o: Order, w: WorldState, local: string, peer: string,
                        clock: nat -> Int64)
    returns (after: WorldState, cid: map<UserID, UserID>)
    requires Sendable(a) && Orders(o, a) && ServerName(server)
    requires w.Valid() && NoClash(a, w)
    requires forall c :: c in a.chans ==> Later(clock, a.chans[c].createdAt)
    ensures after == Replay(w, local, peer, BurstLines(a, server, o), clock)
    ensures Received(a, server, w, after, cid)
    ensures Unanswered(w, local, peer, BurstLines(a, server, o), clock)
  {
    StepFilesUsers(local, peer, server, clock);
    StepHandlesChannels(local, peer, server, clock);
    StepHandlesJoinsOnto(local, peer, clock);
    StepChangesOne(local, peer, clock);
    HandlesSilently(local, peer, server, clock);
    BurstIsUnanswered(a, server, o, w, Step(local, peer, clock), Silent(local, peer, clock), clock);
    after, cid := BurstRuns(a, server, o, w, Step(local, peer, clock), clock);
  }
}
