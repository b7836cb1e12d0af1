/** The channel half of burst faithfulness: what the JOIN, TOPIC and MODE lines of one channel build on
    the receiving node. */
module BurstChannels {
  import opened Prelude
  import opened Numbers
  import opened Message
  import opened State
  import opened ModeSpec
  import opened FedSpec
  import opened BurstUsers

  type Stepper = (WorldState, Message, nat) -> WorldState

  function Put(w: WorldState, ch: ChanState): WorldState {
    w.(chans := w.chans[w.Key(ch.name) := ch])
  }

  lemma PutFinds(w: WorldState, ch: ChanState, nick: string)
    ensures Put(w, ch).FindByNick(nick) == w.FindByNick(nick)
    ensures ch.name != "" ==> Put(w, ch).FindChannel(ch.name) == Some(ch)
    ensures forall name :: name != "" && w.Key(name) == w.Key(ch.name) ==> Put(w, ch).FindChannel(name) == Some(ch)
  {
  }

  lemma PutTwice(w: WorldState, ch: ChanState, ch': ChanState)
    requires ch.name == ch'.name
    ensures Put(Put(w, ch), ch') == Put(w, ch')
  {
  }

  // ----- joins -----

  /** A channel that came into being through JOIN lines: the members have no flags and the timestamp is
      the sender's. */
  function Joined(name: string, ts: Int64, ids: set<UserID>): ChanState {
    NewChan(name, ts).(members := map id | id in ids :: NO_FLAGS)
  }

  /** `w` before the first JOIN line of a channel, or with the channel as the lines so far built it. */
  function WithJoined(w: WorldState, name: string, ts: Int64, ids: set<UserID>): WorldState {
    if ids == {} then w else Put(w, Joined(name, ts, ids))
  }

  lemma FirstJoin(w: WorldState, name: string, ts: Int64, id: UserID, now: Int64)
    requires id in w.users && w.Key(name) !in w.chans && 0 < ts < now
    ensures Older(w.JoinedChan(id, name, now), ts) == Joined(name, ts, {id})
  {
  }

  lemma LaterJoin(w: WorldState, name: string, ts: Int64, ids: set<UserID>, id: UserID, now: Int64)
    requires ids != {}
    ensures Older(Put(w, Joined(name, ts, ids)).JoinedChan(id, name, now), ts) == Joined(name, ts, ids + {id})
  {
    var ch := Joined(name, ts, ids);
    var x :| x in ids;
    assert x in ch.members && |ch.members| > 0;
    assert Older(ch.AddMember(id, false), ts).members == Joined(name, ts, ids + {id}).members;
  }

  lemma JoinDispatch(w: WorldState, local: string, peer: string, ch: ChanState, u: UserState, now: Int64)
    requires '!' !in u.nick
    ensures Handle(w, local, peer, JoinLine(ch, u), now).w == RemoteJoin(w, JoinLine(ch, u), now)
    ensures SenderOf(JoinLine(ch, u).prefix) == u.nick
  {
    VerbsOf();
    SenderOfMask(u.nick, (if u.user == "" then u.nick else u.user) + "@"
                 + (if u.host == "" then "unknown" else u.host));
  }

  lemma JoinEffect(before: WorldState, msg: Message, ch: ChanState, id: UserID, now: Int64)
    requires msg.params == [ch.name, FormatInt(ch.createdAt)]
    requires ch.name != "" && 0 < ch.createdAt
    requires before.FindByNick(SenderOf(msg.prefix)).Some? && before.FindByNick(SenderOf(msg.prefix)).value.IsRemote()
    requires before.FindByNick(SenderOf(msg.prefix)).value.id == id && id in before.users
    ensures RemoteJoin(before, msg, now)
         == WithChan(before, before.Key(ch.name), Older(before.JoinedChan(id, ch.name, now), ch.createdAt))
  {
    ParseFormat(ch.createdAt);
  }

  lemma JoinedGrows(w: WorldState, ch: ChanState, ids: set<UserID>, id: UserID, now: Int64)
    requires id in w.users && ch.name != "" && w.Key(ch.name) !in w.chans && 0 < ch.createdAt < now
    ensures var before := WithJoined(w, ch.name, ch.createdAt, ids);
            WithChan(before, before.Key(ch.name), Older(before.JoinedChan(id, ch.name, now), ch.createdAt))
            == WithJoined(w, ch.name, ch.createdAt, ids + {id})
  {
    assert id in ids + {id};
    if ids == {} {
      FirstJoin(w, ch.name, ch.createdAt, id, now);
      assert ids + {id} == {id};
    } else {
      LaterJoin(w, ch.name, ch.createdAt, ids, id, now);
    }
  }

  lemma JoinLineEffect(w: WorldState, local: string, peer: string, ch: ChanState, u: UserState, ids: set<UserID>,
                       now: Int64)
    requires '!' !in u.nick && w.FindByNick(u.nick).Some? && w.FindByNick(u.nick).value.IsRemote()
    requires w.FindByNick(u.nick).value.id in w.users
    requires ch.name != "" && w.Key(ch.name) !in w.chans && 0 < ch.createdAt < now
    ensures Handle(WithJoined(w, ch.name, ch.createdAt, ids), local, peer, JoinLine(ch, u), now).w
         == WithJoined(w, ch.name, ch.createdAt, ids + {w.FindByNick(u.nick).value.id})
  {
    var id := w.FindByNick(u.nick).value.id;
    var before := WithJoined(w, ch.name, ch.createdAt, ids);
    JoinDispatch(before, local, peer, ch, u, now);
    PutFinds(w, Joined(ch.name, ch.createdAt, ids), u.nick);
    JoinEffect(before, JoinLine(ch, u), ch, id, now);
    JoinedGrows(w, ch, ids, id, now);
  }

  // ----- topic and mode lines -----

  /** The name on a line may be spelled differently from that of the channel it is filed under. */
  predicate Names(w: WorldState, name: string, ch: ChanState) {
    name != "" && w.Key(name) == w.Key(ch.name)
  }

  lemma TopicLineEffect(w: WorldState, local: string, peer: string, ch: ChanState, name: string, server: string,
                        text: string, now: Int64)
    requires Names(w, name, ch)
    ensures Handle(Put(w, ch), local, peer, Plain(server, "TOPIC", [name, text]), now).w
         == Put(w, ch.(topic := Topic(text, server, now)))
  {
    VerbsOf();
    PutFinds(w, ch, "");
    PutTwice(w, ch, ch.(topic := Topic(text, server, now)));
    var msg := Plain(server, "TOPIC", [name, text]);
    assert Handle(Put(w, ch), local, peer, msg, now).w == RemoteTopic(Put(w, ch), msg, now);
  }

  lemma ModeLineEffect(w: WorldState, local: string, peer: string, ch: ChanState, name: string, server: string,
                       word: string, args: seq<string>, now: Int64)
    requires Names(w, name, ch)
    ensures Handle(Put(w, ch), local, peer, ModeLine(server, name, word, args), now).w
         == if IsStandard(name) then Put(w, RemoteRun(Put(w, ch), ch, '+', word, args, now)) else Put(w, ch)
  {
    VerbsOf();
    PutFinds(w, ch, "");
    var msg := ModeLine(server, name, word, args);
    assert msg.params[2..] == args;
    assert Handle(Put(w, ch), local, peer, msg, now).w == RemoteMode(Put(w, ch), msg, now);
    if IsStandard(name) {
      RemoteRunFrame(Put(w, ch), ch, '+', word, args, now);
      PutTwice(w, ch, RemoteRun(Put(w, ch), ch, '+', word, args, now));
    }
  }

  lemma OneModeRun(w: WorldState, ch: ChanState, mc: char, arg: string, now: int)
    requires !IsSign(mc)
    ensures RemoteRun(w, ch, '+', ['+', mc], [arg], now) == RemoteEffect(w, ch, true, KindOf(mc), [arg], now).0
  {
    assert [mc][1..] == "";
    assert RemoteRun(w, ch, '+', [mc], [arg], now) == RemoteEffect(w, ch, true, KindOf(mc), [arg], now).0;
    assert ['+', mc][1..] == [mc];
  }

  // ----- the mode word -----

  /** The letters of a mode word, by a list of modes in order with their letters. */
  function LettersBy(modes: Modes, order: seq<(BoolMode, char)>): string {
    if order == [] then ""
    else Letter(modes.Get(order[0].0), [order[0].1]) + LettersBy(modes, order[1..])
  }

  ghost predicate LettersFit(order: seq<(BoolMode, char)>) {
    forall i :: 0 <= i < |order| ==> KindOf(order[i].1) == BoolMode(order[i].0) && !IsSign(order[i].1)
  }

  predicate Replicated(mode: BoolMode) {
    mode != Anonymous && mode != ServerReop
  }

  /** The modes after the letters of a mode word are applied to `cur`. */
  function Applied(cur: Modes, modes: Modes, order: seq<(BoolMode, char)>): Modes
    decreases |order|
  {
    if order == [] then cur
    else
      var mode := order[0].0;
      Applied(if modes.Get(mode) && Replicated(mode) then cur.Set(mode, true) else cur, modes, order[1..])
  }

  lemma {:induction false} LettersRun(w: WorldState, ch: ChanState, modes: Modes, order: seq<(BoolMode, char)>,
                                      tail: string, args: seq<string>, now: int)
    requires LettersFit(order)
    ensures RemoteRun(w, ch, '+', LettersBy(modes, order) + tail, args, now)
         == RemoteRun(w, ch.(modes := Applied(ch.modes, modes, order)), '+', tail, args, now)
    decreases |order|
  {
    if order == [] {
      assert LettersBy(modes, order) + tail == tail;
      assert ch.(modes := ch.modes) == ch;
    } else {
      var (mode, letter) := order[0];
      var rest := LettersBy(modes, order[1..]) + tail;
      if modes.Get(mode) {
        var ch' := if Replicated(mode) then ch.(modes := ch.modes.Set(mode, true)) else ch;
        assert LettersBy(modes, order) + tail == [letter] + rest;
        assert RemoteEffect(w, ch, true, KindOf(letter), args, now) == (ch', 0);
        assert ([letter] + rest)[1..] == rest && args[0..] == args;
        LettersRun(w, ch', modes, order[1..], tail, args, now);
      } else {
        assert LettersBy(modes, order) + tail == rest;
        LettersRun(w, ch, modes, order[1..], tail, args, now);
      }
    }
  }

  lemma SetGets(modes: Modes, mode: BoolMode, on: bool, m: BoolMode)
    ensures modes.Set(mode, on).Get(m) == if m == mode then on else modes.Get(m)
  {
  }

  ghost predicate Lists(order: seq<(BoolMode, char)>, m: BoolMode) {
    exists i :: 0 <= i < |order| && order[i].0 == m
  }

  lemma {:induction false} AppliedGets(cur: Modes, modes: Modes, order: seq<(BoolMode, char)>, m: BoolMode)
    ensures Applied(cur, modes, order).Get(m)
        <==> cur.Get(m) || (Replicated(m) && modes.Get(m) && Lists(order, m))
    decreases |order|
  {
    if order != [] {
      var mode := order[0].0;
      SetGets(cur, mode, true, m);
      AppliedGets(if modes.Get(mode) && Replicated(mode) then cur.Set(mode, true) else cur, modes, order[1..], m);
      assert forall i :: 0 < i < |order| ==> order[i] == order[1..][i - 1];
    }
  }

  /** The boolean modes of a replica: the sender's, plus the +nt every new channel starts with; a and r
      are not replicated. */
  function ReplicaModes(m: Modes): Modes {
    Modes(m.inviteOnly, m.moderated, true, m.private, m.secret, true, false, false)
  }

  /** The order lists every mode under its own letter. */
  ghost predicate Complete(order: seq<(BoolMode, char)>) {
    LettersFit(order) && forall m: BoolMode :: Lists(order, m)
  }

  lemma LettersByCons(m: Modes, mode: BoolMode, letter: char, rest: seq<(BoolMode, char)>)
    ensures LettersBy(m, [(mode, letter)] + rest) == Letter(m.Get(mode), [letter]) + LettersBy(m, rest)
  {
    assert ([(mode, letter)] + rest)[1..] == rest;
  }

  lemma AllListed(order: seq<(BoolMode, char)>)
    requires |order| == 8
    requires order[0] == (NoExternal, 'n') && order[1] == (TopicLocked, 't') && order[2] == (Moderated, 'm')
             && order[3] == (InviteOnly, 'i')
    requires order[4] == (Private, 'p') && order[5] == (Secret, 's') && order[6] == (Anonymous, 'a')
             && order[7] == (ServerReop, 'r')
    ensures Complete(order)
  {
    forall m: BoolMode ensures Lists(order, m) {
      var i := match m
        case NoExternal => 0 case TopicLocked => 1 case Moderated => 2 case InviteOnly => 3
        case Private => 4 case Secret => 5 case Anonymous => 6 case ServerReop => 7;
      assert order[i].0 == m;
    }
  }

  lemma LastFour(m: Modes) returns (order: seq<(BoolMode, char)>)
    ensures |order| == 4 && order[0] == (Private, 'p') && order[1] == (Secret, 's') && order[2] == (Anonymous, 'a')
            && order[3] == (ServerReop, 'r')
    ensures LettersBy(m, order)
            == Letter(m.private, "p") + (Letter(m.secret, "s") + (Letter(m.anonymous, "a") + Letter(m.serverReop, "r")))
  {
    var o1 := [(ServerReop, 'r')] + [];
    LettersByCons(m, ServerReop, 'r', []);
    assert Letter(m.serverReop, "r") + "" == Letter(m.serverReop, "r");
    var o2 := [(Anonymous, 'a')] + o1;
    LettersByCons(m, Anonymous, 'a', o1);
    var o3 := [(Secret, 's')] + o2;
    LettersByCons(m, Secret, 's', o2);
    order := [(Private, 'p')] + o3;
    LettersByCons(m, Private, 'p', o3);
  }

  /** The mode word lists every mode. */
  lemma LettersShape(m: Modes) returns (order: seq<(BoolMode, char)>)
    ensures Complete(order) && LettersBy(m, order) == Letters(m)
  {
    var o4 := LastFour(m);
    var o5 := [(InviteOnly, 'i')] + o4;
    LettersByCons(m, InviteOnly, 'i', o4);
    var o6 := [(Moderated, 'm')] + o5;
    LettersByCons(m, Moderated, 'm', o5);
    var o7 := [(TopicLocked, 't')] + o6;
    LettersByCons(m, TopicLocked, 't', o6);
    order := [(NoExternal, 'n')] + o7;
    LettersByCons(m, NoExternal, 'n', o7);
    AllListed(order);
  }

  lemma ModeWordShape(a: ChanState) returns (order: seq<(BoolMode, char)>)
    ensures Complete(order)
    ensures ModeWord(a) != "" && ModeWord(a)[0] == '+'
    ensures ModeWord(a)[1..]
            == LettersBy(a.modes, order) + ((if a.key != "" then "k" else "") + (if a.limit > 0 then "l" else ""))
  {
    order := LettersShape(a.modes);
  }

  lemma ModesByGet(x: Modes, y: Modes)
    requires forall m: BoolMode :: x.Get(m) == y.Get(m)
    ensures x == y
  {
    assert x.Get(InviteOnly) == y.Get(InviteOnly) && x.Get(Moderated) == y.Get(Moderated);
    assert x.Get(NoExternal) == y.Get(NoExternal) && x.Get(Private) == y.Get(Private);
    assert x.Get(Secret) == y.Get(Secret) && x.Get(TopicLocked) == y.Get(TopicLocked);
    assert x.Get(Anonymous) == y.Get(Anonymous) && x.Get(ServerReop) == y.Get(ServerReop);
  }

  /** The modes of a channel that takes over those of another: what either has of the replicated ones. */
  function MergedModes(cur: Modes, m: Modes): Modes {
    Modes(cur.inviteOnly || m.inviteOnly, cur.moderated || m.moderated, cur.noExternal || m.noExternal,
          cur.private || m.private, cur.secret || m.secret, cur.topicLocked || m.topicLocked,
          cur.anonymous, cur.serverReop)
  }

  lemma AppliedMerges(cur: Modes, m: Modes, order: seq<(BoolMode, char)>)
    requires Complete(order)
    ensures Applied(cur, m, order) == MergedModes(cur, m)
  {
    var applied := Applied(cur, m, order);
    forall mode: BoolMode ensures applied.Get(mode) == MergedModes(cur, m).Get(mode) {
      AppliedGets(cur, m, order, mode);
    }
    ModesByGet(applied, MergedModes(cur, m));
  }

  function ReplicaLimit(limit: Int64): Int64 {
    if limit > 0 then limit else 0
  }

  /** A channel that takes over the modes, key and limit of another. */
  function WordOnto(ch: ChanState, a: ChanState): ChanState {
    ch.(modes := MergedModes(ch.modes, a.modes), key := if a.key != "" then a.key else ch.key,
        limit := if a.limit > 0 then a.limit else ch.limit)
  }

  lemma LimitRun(w: WorldState, ch: ChanState, limit: Int64, now: int)
    ensures RemoteRun(w, ch, '+', if limit > 0 then "l" else "", if limit > 0 then [FormatInt(limit)] else [], now)
         == ch.(limit := if limit > 0 then limit else ch.limit)
  {
    ParseFormat(limit);
    assert "l"[1..] == "" && KindOf('l') == LimitMode;
  }

  lemma KeyAndLimitRun(w: WorldState, ch: ChanState, key: string, limit: Int64, now: int)
    ensures RemoteRun(w, ch, '+', (if key != "" then "k" else "") + (if limit > 0 then "l" else ""),
                      (if key != "" then [key] else []) + (if limit > 0 then [FormatInt(limit)] else []), now)
         == ch.(key := if key != "" then key else ch.key, limit := if limit > 0 then limit else ch.limit)
  {
    var lw, lp := if limit > 0 then "l" else "", if limit > 0 then [FormatInt(limit)] else [];
    var ch' := ch.(key := if key != "" then key else ch.key);
    LimitRun(w, ch', limit, now);
    if key != "" {
      assert ("k" + lw)[1..] == lw && ([key] + lp)[1..] == lp && KindOf('k') == KeyMode;
      assert RemoteEffect(w, ch, true, KeyMode, [key] + lp, now) == (ch', 1);
    } else {
      assert "" + lw == lw && [] + lp == lp && ch' == ch;
    }
  }

  /** Replaying a channel's mode word: its modes are added, its key and limit taken over if it has them. */
  lemma ModeWordOnto(w: WorldState, ch: ChanState, a: ChanState, now: int)
    ensures RemoteRun(w, ch, '+', ModeWord(a), ModeParams(a), now) == WordOnto(ch, a)
  {
    var order := ModeWordShape(a);
    var tail := (if a.key != "" then "k" else "") + (if a.limit > 0 then "l" else "");
    var word, args := ModeWord(a), ModeParams(a);
    assert args[0..] == args;
    assert RemoteRun(w, ch, '+', word, args, now) == RemoteRun(w, ch, '+', word[1..], args, now);
    LettersRun(w, ch, a.modes, order, tail, args, now);
    AppliedMerges(ch.modes, a.modes, order);
    KeyAndLimitRun(w, ch.(modes := MergedModes(ch.modes, a.modes)), a.key, a.limit, now);
  }

  /** Replaying a channel's own mode word on a fresh channel. */
  lemma ModeWordRun(w: WorldState, ch: ChanState, a: ChanState, now: int)
    requires ch.key == "" && ch.limit == 0 && ch.modes == DEFAULT_MODES
    ensures RemoteRun(w, ch, '+', ModeWord(a), ModeParams(a), now)
         == ch.(modes := ReplicaModes(a.modes), key := a.key, limit := ReplicaLimit(a.limit))
  {
    ModeWordOnto(w, ch, a, now);
  }
}
