/** What the lines of a burst are, whatever order the maps are walked in. */
module BurstShape {
  import opened Message
  import opened State
  import opened FedSpec

  ghost predicate All(msgs: seq<Message>, p: Message -> bool) {
    forall m :: m in msgs ==> p(m)
  }

  lemma AllBoth(x: seq<Message>, y: seq<Message>, p: Message -> bool)
    ensures All(x + y, p) <==> All(x, p) && All(y, p)
  {
    assert forall m :: m in x + y <==> m in x || m in y;
  }

  lemma AllOne(m: Message, p: Message -> bool)
    ensures All([m], p) <==> p(m)
  {
    assert m in [m];
  }

  lemma AllCons(msgs: seq<Message>, p: Message -> bool)
    requires msgs != []
    ensures All(msgs, p) <==> p(msgs[0]) && All(msgs[1..], p)
  {
    assert msgs == [msgs[0]] + msgs[1..];
    AllBoth([msgs[0]], msgs[1..], p);
    AllOne(msgs[0], p);
  }

  // ----- one kind of lines at a time -----

  /** The line of every local user among the given ones. */
  ghost predicate Users(w: WorldState, server: string, ids: set<UserID>, p: Message -> bool) {
    forall id :: id in ids && IsLocal(w, id) ==> p(UserLine(w.users[id], server))
  }

  ghost predicate Joins(w: WorldState, ch: ChanState, ids: set<UserID>, p: Message -> bool) {
    forall id :: id in ids && IsLocal(w, id) ==> p(JoinLine(ch, w.users[id]))
  }

  ghost predicate Bans(server: string, name: string, masks: set<string>, p: Message -> bool) {
    forall mask :: mask in masks ==> p(ModeLine(server, name, "+b", [mask]))
  }

  ghost predicate Flags(w: WorldState, server: string, ch: ChanState, ids: set<UserID>, p: Message -> bool) {
    && (forall id :: id in ids && IsLocal(w, id) && id in ch.members && ch.members[id].IsOp() ==>
          p(ModeLine(server, ch.name, "+o", [w.users[id].nick])))
    && (forall id :: id in ids && IsLocal(w, id) && id in ch.members && ch.members[id].IsVoice() ==>
          p(ModeLine(server, ch.name, "+v", [w.users[id].nick])))
  }

  function Items<T>(s: seq<T>): set<T> {
    set x | x in s
  }

  lemma ItemsCons<T>(s: seq<T>)
    requires s != []
    ensures Items(s) == {s[0]} + Items(s[1..])
  {
    assert s == [s[0]] + s[1..];
  }

  lemma {:induction false} UserLinesAre(w: WorldState, server: string, ids: seq<UserID>, p: Message -> bool)
    ensures All(UserLines(w, server, ids), p) <==> Users(w, server, Items(ids), p)
  {
    if ids != [] {
      UserLinesAre(w, server, ids[1..], p);
      AllBoth(UserLinesOf(w, server, ids[0]), UserLines(w, server, ids[1..]), p);
      ItemsCons(ids);
      if IsLocal(w, ids[0]) {
        AllOne(UserLine(w.users[ids[0]], server), p);
      }
    }
  }

  lemma {:induction false} JoinLinesAre(w: WorldState, ch: ChanState, ids: seq<UserID>, p: Message -> bool)
    ensures All(JoinLines(w, ch, ids), p) <==> Joins(w, ch, Items(ids), p)
  {
    if ids != [] {
      JoinLinesAre(w, ch, ids[1..], p);
      AllBoth(JoinLinesOf(w, ch, ids[0]), JoinLines(w, ch, ids[1..]), p);
      ItemsCons(ids);
      if IsLocal(w, ids[0]) {
        AllOne(JoinLine(ch, w.users[ids[0]]), p);
      }
    }
  }

  lemma {:induction false} BanLinesAre(server: string, name: string, masks: seq<string>, p: Message -> bool)
    ensures All(BanLines(server, name, masks), p) <==> Bans(server, name, Items(masks), p)
  {
    if masks != [] {
      BanLinesAre(server, name, masks[1..], p);
      AllBoth([ModeLine(server, name, "+b", [masks[0]])], BanLines(server, name, masks[1..]), p);
      AllOne(ModeLine(server, name, "+b", [masks[0]]), p);
      ItemsCons(masks);
    }
  }

  lemma OneFlagged(w: WorldState, server: string, ch: ChanState, id: UserID, p: Message -> bool)
    ensures All(FlagLinesOf(w, server, ch, id), p) <==> Flags(w, server, ch, {id}, p)
  {
    if IsLocal(w, id) && id in ch.members {
      var op, voice := ModeLine(server, ch.name, "+o", [w.users[id].nick]),
        ModeLine(server, ch.name, "+v", [w.users[id].nick]);
      var ops := if ch.members[id].IsOp() then [op] else [];
      var voices := if ch.members[id].IsVoice() then [voice] else [];
      AllBoth(ops, voices, p);
      AllOne(op, p);
      AllOne(voice, p);
    }
  }

  lemma {:induction false} FlagLinesAre(w: WorldState, server: string, ch: ChanState, ids: seq<UserID>,
                                        p: Message -> bool)
    ensures All(FlagLines(w, server, ch, ids), p) <==> Flags(w, server, ch, Items(ids), p)
  {
    if ids != [] {
      FlagLinesAre(w, server, ch, ids[1..], p);
      OneFlagged(w, server, ch, ids[0], p);
      AllBoth(FlagLinesOf(w, server, ch, ids[0]), FlagLines(w, server, ch, ids[1..]), p);
      ItemsCons(ids);
    }
  }

  // ----- channels and bursts -----

  function WordLine(server: string, ch: ChanState): Message {
    ModeLine(server, ch.name, ModeWord(ch), ModeParams(ch))
  }

  /** The lines of a channel: one JOIN for each local member, the topic if there is one, the mode word, one
      line for each ban, and one for each flag of a local member. */
  ghost predicate ChanEvery(w: WorldState, server: string, ch: ChanState, p: Message -> bool) {
    HasLocal(w, ch) ==>
      && Joins(w, ch, ch.members.Keys, p)
      && (ch.topic.text != "" ==> p(Plain(server, "TOPIC", [ch.name, ch.topic.text])))
      && p(WordLine(server, ch)) && Bans(server, ch.name, ch.lists.bans.Keys, p)
      && Flags(w, server, ch, ch.members.Keys, p)
  }

  ghost predicate EveryLine(w: WorldState, server: string, p: Message -> bool) {
    Users(w, server, w.users.Keys, p) && forall c :: c in w.chans ==> ChanEvery(w, server, w.chans[c], p)
  }

  lemma ChanLinesAre(w: WorldState, server: string, ch: ChanState, o: ChanOrder, p: Message -> bool)
    requires OrdersChan(o, ch)
    ensures All(ChanLines(w, server, ch, o), p) <==> ChanEvery(w, server, ch, p)
  {
    assert Items(o.members) == ch.members.Keys && Items(o.bans) == ch.lists.bans.Keys
           && Items(o.flags) == ch.members.Keys;
    JoinLinesAre(w, ch, o.members, p);
    if HasLocal(w, ch) {
      AllBoth(JoinLines(w, ch, o.members), SettingLines(w, server, ch, o), p);
      SettingLinesAre(w, server, ch, o, p);
    }
  }

  lemma SettingLinesAre(w: WorldState, server: string, ch: ChanState, o: ChanOrder, p: Message -> bool)
    ensures All(SettingLines(w, server, ch, o), p) <==>
              && (ch.topic.text != "" ==> p(Plain(server, "TOPIC", [ch.name, ch.topic.text])))
              && p(WordLine(server, ch)) && Bans(server, ch.name, Items(o.bans), p)
              && Flags(w, server, ch, Items(o.flags), p)
  {
    var bans, flags := BanLines(server, ch.name, o.bans), FlagLines(w, server, ch, o.flags);
    BanLinesAre(server, ch.name, o.bans, p);
    FlagLinesAre(w, server, ch, o.flags, p);
    AllBoth(bans, flags, p);
    AllBoth([WordLine(server, ch)], bans + flags, p);
    AllOne(WordLine(server, ch), p);
    AllOne(Plain(server, "TOPIC", [ch.name, ch.topic.text]), p);
    AllBoth(TopicLines(server, ch), [WordLine(server, ch)] + (bans + flags), p);
  }

  lemma {:induction false} AllChanLinesAre(w: WorldState, server: string, chans: seq<string>,
                                           inside: map<string, ChanOrder>,
                                           p: Message -> bool)
    requires forall c :: c in chans ==> c in w.chans && c in inside && OrdersChan(inside[c], w.chans[c])
    ensures All(AllChanLines(w, server, chans, inside), p) <==>
            forall c :: c in chans ==> ChanEvery(w, server, w.chans[c], p)
    decreases |chans|
  {
    if chans != [] {
      var c := chans[0];
      assert chans == [c] + chans[1..];
      AllChanLinesAre(w, server, chans[1..], inside, p);
      ChanLinesAre(w, server, w.chans[c], inside[c], p);
      AllBoth(ChanLines(w, server, w.chans[c], inside[c]), AllChanLines(w, server, chans[1..], inside), p);
    }
  }

  /** Something holds of every line of a burst, in whatever order, exactly when it holds of the line of every
      local user and of the lines of every channel with a local member. */
  lemma BurstLinesAre(w: WorldState, server: string, o: Order, p: Message -> bool)
    requires Orders(o, w)
    ensures All(BurstLines(w, server, o), p) <==> EveryLine(w, server, p)
  {
    assert Items(o.users) == w.users.Keys;
    UserLinesAre(w, server, o.users, p);
    AllChanLinesAre(w, server, o.chans, o.inside, p);
    AllBoth(UserLines(w, server, o.users), AllChanLines(w, server, o.chans, o.inside), p);
  }

  lemma ChanAboutChannels(w: WorldState, server: string, ch: ChanState)
    ensures ChanEvery(w, server, ch, AboutChannels)
  {
    assert VerbOf("JOIN") == JoinVerb && VerbOf("TOPIC") == TopicVerb && VerbOf("MODE") == ModeVerb;
  }

  /** The second half of a burst leaves users alone. */
  lemma ChannelHalf(w: WorldState, server: string, o: Order)
    requires Orders(o, w)
    ensures All(AllChanLines(w, server, o.chans, o.inside), AboutChannels)
  {
    forall c | c in o.chans ensures ChanEvery(w, server, w.chans[c], AboutChannels) {
      ChanAboutChannels(w, server, w.chans[c]);
    }
    AllChanLinesAre(w, server, o.chans, o.inside, AboutChannels);
  }
}
