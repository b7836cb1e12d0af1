/** Streaming a node's state to a peer, with the map walks in whatever order they come. */
module Burst {
  import opened Prelude
  import opened Numbers
  import opened Message
  import opened State
  import opened FedSpec
  import opened Channel
  import opened Link
  import W = World

  // ----- one more element of a walk -----

  lemma {:induction false} UserLinesAppend(w: WorldState, local: string, ids: seq<UserID>, id: UserID)
    ensures UserLines(w, local, ids + [id]) == UserLines(w, local, ids) + UserLinesOf(w, local, id)
    decreases |ids|
  {
    if ids == [] {
      assert [id][1..] == [] && [] + UserLinesOf(w, local, id) == UserLinesOf(w, local, id) + [];
    } else {
      FirstOfConcat(ids, [id]);
      UserLinesAppend(w, local, ids[1..], id);
      Assoc(UserLinesOf(w, local, ids[0]), UserLines(w, local, ids[1..]), UserLinesOf(w, local, id));
    }
  }

  lemma {:induction false} JoinLinesAppend(w: WorldState, ch: ChanState, ids: seq<UserID>, id: UserID)
    ensures JoinLines(w, ch, ids + [id]) == JoinLines(w, ch, ids) + JoinLinesOf(w, ch, id)
    decreases |ids|
  {
    if ids == [] {
      assert [id][1..] == [] && [] + JoinLinesOf(w, ch, id) == JoinLinesOf(w, ch, id) + [];
    } else {
      FirstOfConcat(ids, [id]);
      JoinLinesAppend(w, ch, ids[1..], id);
      Assoc(JoinLinesOf(w, ch, ids[0]), JoinLines(w, ch, ids[1..]), JoinLinesOf(w, ch, id));
    }
  }

  lemma {:induction false} FlagLinesAppend(w: WorldState, local: string, ch: ChanState, ids: seq<UserID>, id: UserID)
    ensures FlagLines(w, local, ch, ids + [id]) == FlagLines(w, local, ch, ids) + FlagLinesOf(w, local, ch, id)
    decreases |ids|
  {
    if ids == [] {
      assert [id][1..] == [] && [] + FlagLinesOf(w, local, ch, id) == FlagLinesOf(w, local, ch, id) + [];
    } else {
      FirstOfConcat(ids, [id]);
      FlagLinesAppend(w, local, ch, ids[1..], id);
      Assoc(FlagLinesOf(w, local, ch, ids[0]), FlagLines(w, local, ch, ids[1..]), FlagLinesOf(w, local, ch, id));
    }
  }

  lemma {:induction false} BanLinesAppend(local: string, name: string, masks: seq<string>, mask: string)
    ensures BanLines(local, name, masks + [mask])
            == BanLines(local, name, masks) + [ModeLine(local, name, "+b", [mask])]
    decreases |masks|
  {
    if masks == [] {
      assert [mask][1..] == [];
    } else {
      FirstOfConcat(masks, [mask]);
      BanLinesAppend(local, name, masks[1..], mask);
    }
  }

  function ChanLinesAt(w: WorldState, local: string, c: string, inside: map<string, ChanOrder>): seq<Message> {
    if c in w.chans && c in inside then ChanLines(w, local, w.chans[c], inside[c]) else []
  }

  lemma {:induction false} AllChanLinesAppend(w: WorldState, local: string, chans: seq<string>, c: string,
                                              inside: map<string, ChanOrder>)
    ensures AllChanLines(w, local, chans + [c], inside)
            == AllChanLines(w, local, chans, inside) + ChanLinesAt(w, local, c, inside)
    decreases |chans|
  {
    if chans == [] {
      assert [c][1..] == [];
    } else {
      FirstOfConcat(chans, [c]);
      AllChanLinesAppend(w, local, chans[1..], c, inside);
      Assoc(ChanLinesAt(w, local, chans[0], inside), AllChanLines(w, local, chans[1..], inside),
            ChanLinesAt(w, local, c, inside));
    }
  }

  /** Orders of other channels do not matter. */
  lemma {:induction false} OtherOrders(w: WorldState, local: string, chans: seq<string>, inside: map<string, ChanOrder>,
                                       c: string, o: ChanOrder)
    requires c !in chans
    ensures AllChanLines(w, local, chans, inside[c := o]) == AllChanLines(w, local, chans, inside)
    decreases |chans|
  {
    if chans != [] {
      OtherOrders(w, local, chans[1..], inside, c, o);
    }
  }

  lemma NextChannel(w: WorldState, local: string, keys: seq<string>, inside: map<string, ChanOrder>, c: string,
                    o: ChanOrder)
    requires c !in keys && c in w.chans
    ensures AllChanLines(w, local, keys + [c], inside[c := o])
            == AllChanLines(w, local, keys, inside) + ChanLines(w, local, w.chans[c], o)
  {
    OtherOrders(w, local, keys, inside, c, o);
    AllChanLinesAppend(w, local, keys, c, inside[c := o]);
  }

  // ----- the walks -----

  method UserBurst(w: W.World, local: string) returns (lines: seq<Message>, ghost order: seq<UserID>)
    requires w.UsersLinked()
    ensures Enumerates(order, w.model.users.Keys) && lines == UserLines(w.model, local, order)
  {
    lines, order := [], [];
    var todo := w.byID.Keys;
    while todo != {}
      invariant todo <= w.byID.Keys && Enumerates(order, w.byID.Keys - todo)
      invariant lines == UserLines(w.model, local, order)
    {
      var id :| id in todo;
      todo := todo - {id};
      UserLinesAppend(w.model, local, order, id);
      order := order + [id];
      var u := w.byID[id].State();
      if u.IsRemote() {
        assert lines + [] == lines;
        continue;
      }
      lines := lines + [UserLine(u, local)];
    }
  }

  /** The JOIN line of a local user. */
  method JoinOf(w: W.World, ch: Channel, id: UserID) returns (lines: seq<Message>, isLocal: bool)
    requires w.UsersLinked()
    ensures isLocal == IsLocal(w.model, id) && lines == JoinLinesOf(w.model, ch.State(), id)
  {
    if id !in w.byID || w.byID[id].homeServer != "" {
      return [], false;
    }
    lines, isLocal := [Plain(w.byID[id].State().Hostmask(), "JOIN", [ch.name, FormatInt(ch.createdAt)])], true;
  }

  /** The members of a channel that are local users. */
  method MemberBurst(w: W.World, ch: Channel) returns (lines: seq<Message>, hasLocal: bool, ghost order: seq<UserID>)
    requires w.UsersLinked()
    ensures Enumerates(order, ch.members.Keys) && lines == JoinLines(w.model, ch.State(), order)
    ensures hasLocal == HasLocal(w.model, ch.State())
  {
    hide W.World.UsersLinked;
    lines, order, hasLocal := [], [], false;
    var todo := ch.members.Keys;
    while todo != {}
      invariant todo <= ch.members.Keys && Enumerates(order, ch.members.Keys - todo)
      invariant lines == JoinLines(w.model, ch.State(), order)
      invariant hasLocal <==> exists id :: id in ch.members && id !in todo && IsLocal(w.model, id)
    {
      var id :| id in todo;
      todo := todo - {id};
      JoinLinesAppend(w.model, ch.State(), order, id);
      order := order + [id];
      var more, isLocal := JoinOf(w, ch, id);
      lines := lines + more;
      hasLocal := hasLocal || isLocal;
    }
  }

  method FlagBurst(w: W.World, local: string, ch: Channel) returns (lines: seq<Message>, ghost order: seq<UserID>)
    requires w.UsersLinked()
    ensures Enumerates(order, ch.members.Keys) && lines == FlagLines(w.model, local, ch.State(), order)
  {
    lines, order := [], [];
    var todo := ch.members.Keys;
    while todo != {}
      invariant todo <= ch.members.Keys && Enumerates(order, ch.members.Keys - todo)
      invariant lines == FlagLines(w.model, local, ch.State(), order)
    {
      var id :| id in todo;
      todo := todo - {id};
      FlagLinesAppend(w.model, local, ch.State(), order, id);
      order := order + [id];
      var more := FlagsOf(w, local, ch, id);
      lines := lines + more;
    }
  }

  method FlagsOf(w: W.World, local: string, ch: Channel, id: UserID) returns (lines: seq<Message>)
    requires w.UsersLinked() && id in ch.members
    ensures lines == FlagLinesOf(w.model, local, ch.State(), id)
  {
    lines := [];
    if id !in w.byID || w.byID[id].homeServer != "" {
      return;
    }
    if ch.members[id].IsOp() {
      lines := lines + [ModeLine(local, ch.name, "+o", [w.byID[id].nick])];
    }
    if ch.members[id].IsVoice() {
      lines := lines + [ModeLine(local, ch.name, "+v", [w.byID[id].nick])];
    }
  }

  method BanBurst(local: string, ch: Channel) returns (lines: seq<Message>, ghost order: seq<string>)
    ensures Enumerates(order, ch.bans.Keys) && lines == BanLines(local, ch.name, order)
  {
    lines, order := [], [];
    var todo := ch.bans.Keys;
    while todo != {}
      invariant todo <= ch.bans.Keys && Enumerates(order, ch.bans.Keys - todo)
      invariant lines == BanLines(local, ch.name, order)
    {
      var mask :| mask in todo;
      todo := todo - {mask};
      BanLinesAppend(local, ch.name, order, mask);
      order := order + [mask];
      lines := lines + [ModeLine(local, ch.name, "+b", [mask])];
    }
  }

  method ChannelBurst(w: W.World, local: string, ch: Channel) returns (lines: seq<Message>, ghost o: ChanOrder)
    requires w.UsersLinked()
    ensures OrdersChan(o, ch.State()) && lines == ChanLines(w.model, local, ch.State(), o)
  {
    var joins, hasLocal, members := MemberBurst(w, ch);
    var bans, masks := BanBurst(local, ch);
    var flags, flagged := FlagBurst(w, local, ch);
    o := ChanOrder(members, masks, flagged);
    if !hasLocal {
      return joins + [], o;
    }
    var topic := if ch.topic != "" then [Plain(local, "TOPIC", [ch.name, ch.topic])] else [];
    var word, params := ch.ModeString();
    lines := joins + (topic + ([ModeLine(local, ch.name, word, params)] + (bans + flags)));
  }

  /** sendBurst: users first, then channels. */
  method SendBurst(l: Link) returns (ghost o: Order)
    requires l.world.Valid()
    modifies l`sent
    ensures Orders(o, l.world.model) && l.sent == old(l.sent) + BurstLines(l.world.model, l.localName, o)
  {
    var users, ids := UserBurst(l.world, l.localName);
    var channels, keys, inside := ChannelBursts(l.world, l.localName);
    o := Order(ids, keys, inside);
    l.sent := l.sent + (users + channels);
  }

  lemma NoChannels(w: WorldState, local: string)
    ensures AllChanLines(w, local, [], map[]) == []
  {
  }

  /** One more channel of the walk. */
  method ChannelNext(w: W.World, local: string, ghost keys: seq<string>, ghost inside: map<string, ChanOrder>,
                     c: string)
    returns (more: seq<Message>, ghost o: ChanOrder)
    requires w.Valid() && c in w.byChannel && c !in keys && forall k :: k in keys ==> k in inside
    ensures c in w.model.chans && OrdersChan(o, w.model.chans[c])
    ensures AllChanLines(w.model, local, keys + [c], inside[c := o])
            == AllChanLines(w.model, local, keys, inside) + more
  {
    more, o := ChannelBurst(w, local, w.byChannel[c]);
    NextChannel(w.model, local, keys, inside, c, o);
  }

  method ChannelBursts(w: W.World, local: string)
    returns (lines: seq<Message>, ghost keys: seq<string>, ghost inside: map<string, ChanOrder>)
    requires w.Valid()
    ensures Enumerates(keys, w.model.chans.Keys) && inside.Keys == w.model.chans.Keys
    ensures forall c :: c in w.model.chans ==> OrdersChan(inside[c], w.model.chans[c])
    ensures lines == AllChanLines(w.model, local, keys, inside)
  {
    hide W.World.UsersLinked, W.World.Distinct, AllChanLines, OrdersChan;
    NoChannels(w.model, local);
    lines, keys, inside := [], [], map[];
    var todo := w.byChannel.Keys;
    while todo != {}
      invariant todo <= w.byChannel.Keys && Enumerates(keys, w.byChannel.Keys - todo)
      invariant forall c :: c in inside <==> c in w.byChannel && c !in todo
      invariant forall c :: c in inside ==> OrdersChan(inside[c], w.model.chans[c])
      invariant lines == AllChanLines(w.model, local, keys, inside)
    {
      var c :| c in todo;
      todo := todo - {c};
      var more, o := ChannelNext(w, local, keys, inside, c);
      keys, inside := keys + [c], inside[c := o];
      lines := lines + more;
    }
  }
}
