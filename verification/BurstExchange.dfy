/** Two nodes whose link comes up replay each other's whole burst: who knows whom afterwards, and which of
    their channels agree. */
module BurstExchange {
  import opened Prelude
  import opened Numbers
  import opened Message
  import opened State
  import opened ModeSpec
  import opened ModeProofs
  import opened FedSpec
  import opened BurstUsers
  import opened BurstChannels
  import opened BurstReplay
  import opened BurstTheorem
  import opened ChannelMerge

  /** A '#' or '&' channel with members, all of them users of the node itself. */
  ghost predicate OwnChannel(a: WorldState, x: ChanState) {
    Ordinary(x) && x.members != map[] && forall id :: id in x.members ==> IsLocal(a, id)
  }

  /** Both nodes have the channel with the same timestamp, and agree on it if and only if `condition` holds. */
  ghost predicate AgreeOn(w: WorldState, v: WorldState, c: string, condition: bool) {
    && c in w.chans && c in v.chans && w.chans[c].createdAt == v.chans[c].createdAt
    && (CopiesAgree(w, w.chans[c], v, v.chans[c]) <==> condition)
  }

  /** A mode word turns modes on and never off, and a new channel starts with +nt. */
  predicate KeepsDefaults(x: ChanState) {
    x.modes.noExternal && x.modes.topicLocked
  }

  /** What the exchange makes of the channels filed under `c` on the nodes `a` and `b`. */
  ghost predicate ExchangedChan(a: WorldState, w: WorldState, b: WorldState, v: WorldState, c: string) {
    && (c in a.chans && OwnChannel(a, a.chans[c]) && c in b.chans && OwnChannel(b, b.chans[c]) ==>
          AgreeOn(w, v, c, Compatible(a.chans[c], b.chans[c])))
    && (c in a.chans && OwnChannel(a, a.chans[c]) && c !in b.chans ==> AgreeOn(w, v, c, KeepsDefaults(a.chans[c])))
    && (c !in a.chans && c in b.chans && OwnChannel(b, b.chans[c]) ==> AgreeOn(w, v, c, KeepsDefaults(b.chans[c])))
  }

  // ----- what one node received -----

  lemma NoClashBoth(a: WorldState, b: WorldState)
    requires a.Valid() && b.Valid() && NoClash(a, b)
    ensures NoClash(b, a)
  {
    forall id | id in b.users ensures a.FindByNick(b.users[id].nick).None? {
      var n := b.users[id].nick;
      if a.FindByNick(n).Some? {
        FoundHasKey(a, n);
        HolderFound(b, id, a.FindByNick(n).value.nick);
      }
    }
  }

  /** The node keeps its own users, and so the members of its own channel. */
  lemma OwnMembersKept(a: WorldState, x: ChanState, b: WorldState, server: string, w: WorldState,
                       cid: map<UserID, UserID>)
    requires a.Valid() && OwnChannel(a, x) && Received(b, server, a, w, cid)
    ensures KeepsMembers(a, x, w) && x.members.Keys <= a.users.Keys && HasLocal(a, x)
  {
    var id :| id in x.members;
    assert IsLocal(a, id);
  }

  /** A channel that both nodes have: node `a` has taken in the other's. */
  lemma TookIn(a: WorldState, x: ChanState, b: WorldState, y: ChanState, server: string, w: WorldState,
               cid: map<UserID, UserID>, c: string)
    requires a.Valid() && b.Valid() && a.mapping == b.mapping && Received(b, server, a, w, cid)
    requires c in a.chans && a.chans[c] == x && OwnChannel(a, x) && c in b.chans && b.chans[c] == y
             && OwnChannel(b, y)
    ensures c in w.chans && Merges(y, x, cid, w.chans[c])
  {
    hide Merges, Linked, WorldState.Valid, Ordinary;
    OwnMembersKept(a, x, b, server, w, cid);
    OwnIsStandard(b, y);
    assert ReceivedChan(b, cid, a, w, c);
  }

  lemma OwnIsStandard(b: WorldState, y: ChanState)
    requires OwnChannel(b, y)
    ensures IsStandard(y.name) && HasLocal(b, y)
  {
    var id :| id in y.members;
    assert IsLocal(b, id);
  }

  // ----- a channel that both nodes have -----

  lemma BothHave(a: WorldState, nameA: string, w: WorldState, cidY: map<UserID, UserID>, b: WorldState, nameB: string,
                 v: WorldState, cidX: map<UserID, UserID>, c: string)
    requires a.Valid() && b.Valid() && a.mapping == b.mapping
    requires Received(b, nameB, a, w, cidY) && Received(a, nameA, b, v, cidX)
    requires c in a.chans && OwnChannel(a, a.chans[c]) && c in b.chans && OwnChannel(b, b.chans[c])
    ensures AgreeOn(w, v, c, Compatible(a.chans[c], b.chans[c]))
  {
    hide Merges, Linked, WorldState.Valid, Ordinary, Compatible, CopiesAgree, KeepsMembers, ReceivedNick, ReceivedChan;
    var x, y := a.chans[c], b.chans[c];
    TookIn(a, x, b, y, nameB, w, cidY, c);
    TookIn(b, y, a, x, nameA, v, cidX, c);
    OwnMembersKept(a, x, b, nameB, w, cidY);
    OwnMembersKept(b, y, a, nameA, v, cidX);
    MergedCopiesAgree(a, x, w, b, y, v, cidX, cidY, w.chans[c], v.chans[c]);
  }

  // ----- a channel that one of them had -----

  lemma MemberSeen(a: WorldState, x: ChanState, w: WorldState, v: WorldState, cid: map<UserID, UserID>, q: ChanState,
                   n: string)
    requires KeepsMembers(a, x, w) && Linked(a, v, cid) && w.mapping == v.mapping == a.mapping && Ordinary(x)
    requires IsReplica(x, cid, q) && MemberView(w, x, n).Some?
    ensures MemberView(v, q, n) == MemberView(w, x, n)
  {
    FoundHasKey(w, n);
    var id := w.FindByNick(n).value.id;
    assert IsLocal(a, id) && Known(v, a.users[id]);
    assert v.FindByNick(n) == v.FindByNick(a.users[id].nick);
    assert cid[id] in CopiedMembers(x, cid);
    assert cid[id] in q.members.Keys;
  }

  lemma CopySeen(a: WorldState, x: ChanState, w: WorldState, v: WorldState, cid: map<UserID, UserID>, q: ChanState,
                 n: string)
    requires KeepsMembers(a, x, w) && Linked(a, v, cid) && v.Valid() && w.mapping == v.mapping == a.mapping
    requires Ordinary(x) && IsReplica(x, cid, q) && MemberView(v, q, n).Some?
    ensures MemberView(w, x, n).Some?
  {
    FoundHasKey(v, n);
    var u := v.FindByNick(n).value;
    assert u.id in q.members.Keys && u.id in CopiedMembers(x, cid);
    var id :| id in x.members && id in cid && cid[id] == u.id;
    assert Known(v, a.users[id]);
    FoundHasKey(v, a.users[id].nick);
    HolderFound(w, id, n);
  }

  /** A replica agrees with its original if and only if that has the modes that a new channel starts with. */
  lemma ReplicaAgrees(a: WorldState, x: ChanState, w: WorldState, v: WorldState, cid: map<UserID, UserID>,
                      q: ChanState)
    requires KeepsMembers(a, x, w) && Linked(a, v, cid) && v.Valid() && w.mapping == v.mapping == a.mapping
    requires Ordinary(x) && IsReplica(x, cid, q)
    ensures CopiesAgree(w, x, v, q) <==> KeepsDefaults(x)
  {
    forall n: string ensures MemberView(w, x, n) == MemberView(v, q, n) {
      if MemberView(w, x, n).Some? {
        MemberSeen(a, x, w, v, cid, q, n);
      } else if MemberView(v, q, n).Some? {
        CopySeen(a, x, w, v, cid, q, n);
      }
    }
    ReplicaSettingsAgree(x, cid, q);
  }

  lemma ReplicaSettingsAgree(x: ChanState, cid: map<UserID, UserID>, q: ChanState)
    requires Ordinary(x) && IsReplica(x, cid, q)
    ensures SameSettings(x, q) <==> KeepsDefaults(x)
    ensures q.topic.text == x.topic.text && q.createdAt == x.createdAt
  {
  }

  lemma OneHas(a: WorldState, nameA: string, w: WorldState, cidY: map<UserID, UserID>, b: WorldState, nameB: string,
               v: WorldState, cidX: map<UserID, UserID>, c: string)
    requires a.Valid() && b.Valid() && a.mapping == b.mapping
    requires Received(b, nameB, a, w, cidY) && Received(a, nameA, b, v, cidX)
    requires c in a.chans && OwnChannel(a, a.chans[c]) && c !in b.chans
    ensures AgreeOn(w, v, c, KeepsDefaults(a.chans[c]))
  {
    hide Linked, WorldState.Valid, Ordinary, IsReplica, CopiesAgree, KeepsDefaults, KeepsMembers, ReceivedNick;
    var x := a.chans[c];
    OwnMembersKept(a, x, b, nameB, w, cidY);
    assert ReceivedChan(b, cidY, a, w, c) && ReceivedChan(a, cidX, b, v, c);
    ReplicaAgrees(a, x, w, v, cidX, v.chans[c]);
    ReplicaSettingsAgree(x, cidX, v.chans[c]);
  }

  // ----- the exchange -----

  lemma Reversed(w: WorldState, v: WorldState, c: string, condition: bool)
    requires AgreeOn(w, v, c, condition)
    ensures AgreeOn(v, w, c, condition)
  {
    if CopiesAgree(w, w.chans[c], v, v.chans[c]) {
      ReversedViews(w, w.chans[c], v, v.chans[c]);
    }
    if CopiesAgree(v, v.chans[c], w, w.chans[c]) {
      ReversedViews(v, v.chans[c], w, w.chans[c]);
    }
  }

  lemma ChanIsExchanged(a: WorldState, nameA: string, w: WorldState, cidY: map<UserID, UserID>, b: WorldState,
                        nameB: string, v: WorldState, cidX: map<UserID, UserID>, c: string)
    requires a.Valid() && b.Valid() && a.mapping == b.mapping
    requires Received(b, nameB, a, w, cidY) && Received(a, nameA, b, v, cidX)
    ensures ExchangedChan(a, w, b, v, c)
  {
    hide AgreeOn, Received, Compatible, KeepsDefaults, OwnChannel, WorldState.Valid;
    if c in a.chans && OwnChannel(a, a.chans[c]) {
      if c !in b.chans {
        OneHas(a, nameA, w, cidY, b, nameB, v, cidX, c);
      } else if OwnChannel(b, b.chans[c]) {
        BothHave(a, nameA, w, cidY, b, nameB, v, cidX, c);
      }
    } else if c !in a.chans && c in b.chans && OwnChannel(b, b.chans[c]) {
      OneHas(b, nameB, v, cidX, a, nameA, w, cidY, c);
      Reversed(v, w, c, KeepsDefaults(b.chans[c]));
    }
  }

  /** Two nodes without a common nick replay each other's bursts. Each gains exactly the other's local users,
      answers nothing and cuts no connection. A '#' or '&' channel in which each had only users of its own has
      the same timestamp on both nodes afterwards. If both had it they agree on it if and only if what they had
      was compatible, and if only one had it, if and only if it was +n and +t. */
  lemma BurstsAreExchanged(a: WorldState, nameA: string, oA: Order, clockA: nat -> Int64, b: WorldState, nameB: string,
                           oB: Order, clockB: nat -> Int64)
    returns (w: WorldState, cidY: map<UserID, UserID>, v: WorldState, cidX: map<UserID, UserID>)
    requires Sendable(a) && Orders(oA, a) && ServerName(nameA) && Sendable(b) && Orders(oB, b) && ServerName(nameB)
    requires NoClash(a, b)
    requires forall c :: c in a.chans ==> Later(clockB, a.chans[c].createdAt)
    requires forall c :: c in b.chans ==> Later(clockA, b.chans[c].createdAt)
    ensures w == Replay(a, nameA, nameB, BurstLines(b, nameB, oB), clockA) && Received(b, nameB, a, w, cidY)
    ensures v == Replay(b, nameB, nameA, BurstLines(a, nameA, oA), clockB) && Received(a, nameA, b, v, cidX)
    ensures Unanswered(a, nameA, nameB, BurstLines(b, nameB, oB), clockA)
    ensures Unanswered(b, nameB, nameA, BurstLines(a, nameA, oA), clockB)
    ensures forall c: string :: ExchangedChan(a, w, b, v, c)
  {
    NoClashBoth(a, b);
    w, cidY := BurstIsFaithful(b, nameB, oB, a, nameA, nameB, clockA);
    v, cidX := BurstIsFaithful(a, nameA, oA, b, nameB, nameA, clockB);
    forall c: string ensures ExchangedChan(a, w, b, v, c) {
      ChanIsExchanged(a, nameA, w, cidY, b, nameB, v, cidX, c);
    }
  }
}
