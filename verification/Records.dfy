/** What is kept of a channel between runs of the server, and what a restart makes of it. */
module Records {
  import opened Prelude
  import opened Numbers
  import opened State
  import opened ModeSpec
  import opened FedSpec

  datatype BanRecord = BanRecord(mask: string, setAt: int)

  datatype ChannelRecord = ChannelRecord(
    name: string, topic: Topic, modeWord: string, key: string, limit: Int64,
    bans: seq<BanRecord>, exceptions: seq<BanRecord>, invexes: seq<BanRecord>, quiets: seq<BanRecord>)

  // ----- mask lists -----

  function RecordsOf(masks: Masks, order: seq<string>): seq<BanRecord>
    requires forall mask :: mask in order ==> mask in masks
  {
    if order == [] then [] else [BanRecord(order[0], masks[order[0]])] + RecordsOf(masks, order[1..])
  }

  /** A later record of the same mask wins. */
  function MapOf(records: seq<BanRecord>): Masks {
    if records == [] then map[]
    else
      var last := records[|records| - 1];
      MapOf(records[..|records| - 1])[last.mask := last.setAt]
  }

  lemma {:induction false} RecordsAppend(masks: Masks, order: seq<string>, mask: string)
    requires mask in masks && forall m :: m in order ==> m in masks
    ensures RecordsOf(masks, order + [mask]) == RecordsOf(masks, order) + [BanRecord(mask, masks[mask])]
    decreases |order|
  {
    if order == [] {
      assert order + [mask] == [mask] && [mask][1..] == [];
    } else {
      FirstOfConcat(order, [mask]);
      RecordsAppend(masks, order[1..], mask);
    }
  }

  lemma {:induction false} MasksRoundTrip(masks: Masks, order: seq<string>)
    requires forall m :: m in order ==> m in masks
    ensures MapOf(RecordsOf(masks, order)) == map mask | mask in order :: masks[mask]
    decreases |order|
  {
    if order != [] {
      var front, mask := order[..|order| - 1], order[|order| - 1];
      assert order == front + [mask];
      MasksRoundTrip(masks, front);
      RecordsAppend(masks, front, mask);
      var records := RecordsOf(masks, front);
      assert (records + [BanRecord(mask, masks[mask])])[..|records|] == records;
    }
  }

  /** Whatever order the list was written in, the map comes back. */
  lemma MasksSurvive(masks: Masks, order: seq<string>)
    requires Enumerates(order, masks.Keys)
    ensures MapOf(RecordsOf(masks, order)) == masks
  {
    MasksRoundTrip(masks, order);
  }

  // ----- mode words -----

  function ReadLetter(m: Modes, c: char): Modes {
    match KindOf(c)
    case BoolMode(mode) => m.Set(mode, true)
    case _ => m
  }

  /** Reading a stored mode word: every known boolean letter switches its mode on. */
  function ReadWord(m: Modes, word: string): Modes
    decreases |word|
  {
    if word == "" then m else ReadWord(ReadLetter(m, word[0]), word[1..])
  }

  lemma ReadNext(m: Modes, on: bool, c: char, rest: string)
    ensures ReadWord(m, Letter(on, [c]) + rest) == ReadWord(if on then ReadLetter(m, c) else m, rest)
  {
    if on {
      FirstOfConcat([c], rest);
      assert [c][1..] + rest == rest;
    } else {
      assert "" + rest == rest;
    }
  }

  function SetIf(m: Modes, mode: BoolMode, on: bool): Modes {
    if on then m.Set(mode, true) else m
  }

  lemma ReadMode(m: Modes, on: bool, c: char, mode: BoolMode, rest: string)
    requires KindOf(c) == BoolMode(mode)
    ensures ReadWord(m, Letter(on, [c]) + rest) == ReadWord(SetIf(m, mode, on), rest)
  {
    ReadNext(m, on, c, rest);
  }

  /** The key and limit letters say nothing about the boolean modes. */
  lemma ReadTail(m: Modes, keyed: bool, limited: bool)
    ensures ReadWord(m, Letter(keyed, "k") + Letter(limited, "l")) == m
  {
    ReadNext(m, keyed, 'k', Letter(limited, "l"));
    ReadNext(m, limited, 'l', "");
    assert Letter(limited, "l") + "" == Letter(limited, "l");
  }

  /** One letter that a mode word may hold. */
  datatype Flagged = Flagged(on: bool, c: char, mode: BoolMode)

  predicate Names(f: Flagged) {
    KindOf(f.c) == BoolMode(f.mode)
  }

  function Written(f: Flagged, rest: string): string {
    Letter(f.on, [f.c]) + rest
  }

  function Applied(m: Modes, f: Flagged): Modes {
    SetIf(m, f.mode, f.on)
  }

  lemma ReadTwo(m: Modes, f: Flagged, g: Flagged, rest: string)
    requires Names(f) && Names(g)
    ensures ReadWord(m, Written(f, Written(g, rest))) == ReadWord(Applied(Applied(m, f), g), rest)
  {
    ReadMode(m, f.on, f.c, f.mode, Written(g, rest));
    ReadMode(Applied(m, f), g.on, g.c, g.mode, rest);
  }

  lemma ReadFour(m: Modes, f: Flagged, g: Flagged, h: Flagged, i: Flagged, rest: string)
    requires Names(f) && Names(g) && Names(h) && Names(i)
    ensures ReadWord(m, Written(f, Written(g, Written(h, Written(i, rest)))))
            == ReadWord(Applied(Applied(Applied(Applied(m, f), g), h), i), rest)
  {
    ReadTwo(m, f, g, Written(h, Written(i, rest)));
    ReadTwo(Applied(Applied(m, f), g), h, i, rest);
  }

  lemma ReadEight(n: Modes, rest: string)
    ensures ReadWord(NO_MODES, LettersBefore(n, rest)) == ReadWord(n, rest)
  {
    var half := Modes(n.inviteOnly, n.moderated, n.noExternal, false, false, n.topicLocked, false, false);
    var p, s := Flagged(n.private, 'p', Private), Flagged(n.secret, 's', Secret);
    var a, r := Flagged(n.anonymous, 'a', Anonymous), Flagged(n.serverReop, 'r', ServerReop);
    ReadFour(NO_MODES, Flagged(n.noExternal, 'n', NoExternal), Flagged(n.topicLocked, 't', TopicLocked),
             Flagged(n.moderated, 'm', Moderated), Flagged(n.inviteOnly, 'i', InviteOnly),
             Written(p, Written(s, Written(a, Written(r, rest)))));
    AppliedFirst(n);
    ReadFour(half, p, s, a, r, rest);
    AppliedLast(n);
  }

  lemma AppliedFirst(n: Modes)
    ensures Applied(Applied(Applied(Applied(NO_MODES, Flagged(n.noExternal, 'n', NoExternal)),
              Flagged(n.topicLocked, 't', TopicLocked)), Flagged(n.moderated, 'm', Moderated)),
                Flagged(n.inviteOnly, 'i', InviteOnly))
            == Modes(n.inviteOnly, n.moderated, n.noExternal, false, false, n.topicLocked, false, false)
  {
  }

  lemma AppliedLast(n: Modes)
    ensures var half := Modes(n.inviteOnly, n.moderated, n.noExternal, false, false, n.topicLocked, false, false);
            Applied(Applied(Applied(Applied(half, Flagged(n.private, 'p', Private)), Flagged(n.secret, 's', Secret)),
                            Flagged(n.anonymous, 'a', Anonymous)), Flagged(n.serverReop, 'r', ServerReop)) == n
  {
  }

  /** The boolean letters of a mode word, and what follows them. */
  function LettersBefore(n: Modes, rest: string): string {
    Written(Flagged(n.noExternal, 'n', NoExternal), Written(Flagged(n.topicLocked, 't', TopicLocked),
    Written(Flagged(n.moderated, 'm', Moderated), Written(Flagged(n.inviteOnly, 'i', InviteOnly),
    Written(Flagged(n.private, 'p', Private), Written(Flagged(n.secret, 's', Secret),
    Written(Flagged(n.anonymous, 'a', Anonymous), Written(Flagged(n.serverReop, 'r', ServerReop), rest))))))))
  }

  lemma LettersThen(n: Modes, rest: string)
    ensures Letters(n) + rest == LettersBefore(n, rest)
  {
    var r := Letter(n.serverReop, "r");
    var a := Letter(n.anonymous, "a") + r;
    var s := Letter(n.secret, "s") + a;
    var p := Letter(n.private, "p") + s;
    var i := Letter(n.inviteOnly, "i") + p;
    var m := Letter(n.moderated, "m") + i;
    var t := Letter(n.topicLocked, "t") + m;
    Assoc(Letter(n.noExternal, "n"), t, rest);
    Assoc(Letter(n.topicLocked, "t"), m, rest);
    Assoc(Letter(n.moderated, "m"), i, rest);
    Assoc(Letter(n.inviteOnly, "i"), p, rest);
    Assoc(Letter(n.private, "p"), s, rest);
    Assoc(Letter(n.secret, "s"), a, rest);
    Assoc(Letter(n.anonymous, "a"), r, rest);
  }

  /** Reading back the mode word of a channel gives its boolean modes. */
  lemma ModeWordSurvives(ch: ChanState)
    ensures ReadWord(NO_MODES, ModeWord(ch)) == ch.modes
  {
    var n := ch.modes;
    var tail := Letter(ch.key != "", "k") + Letter(ch.limit > 0, "l");
    var word := Letters(n) + tail;
    ReadNext(NO_MODES, true, '+', word);
    LettersThen(n, tail);
    ReadEight(n, tail);
    ReadTail(n, ch.key != "", ch.limit > 0);
  }

  // ----- one channel -----

  /** The orders in which the four mask lists are written. */
  datatype ListOrders = ListOrders(bans: seq<string>, exceptions: seq<string>, invexes: seq<string>,
    quiets: seq<string>)

  ghost predicate OrdersLists(o: ListOrders, ls: Lists) {
    && Enumerates(o.bans, ls.bans.Keys)
    && Enumerates(o.exceptions, ls.exceptions.Keys)
    && Enumerates(o.invexes, ls.invexes.Keys)
    && Enumerates(o.quiets, ls.quiets.Keys)
  }

  ghost function RecordOf(ch: ChanState, o: ListOrders): ChannelRecord
    requires OrdersLists(o, ch.lists)
  {
    ChannelRecord(ch.name, ch.topic, ModeWord(ch), ch.key, ch.limit,
                  RecordsOf(ch.lists.bans, o.bans), RecordsOf(ch.lists.exceptions, o.exceptions),
                  RecordsOf(ch.lists.invexes, o.invexes), RecordsOf(ch.lists.quiets, o.quiets))
  }

  /** RestoreState: everything but name, creation time, members and invitations is overwritten. */
  function RestoreState(ch: ChanState, topic: Topic, modeWord: string, key: string, limit: Int64,
                        lists: Lists): ChanState
  {
    ch.(topic := topic, modes := ReadWord(NO_MODES, modeWord), key := key, limit := limit, lists := lists)
  }

  function ListsOf(rec: ChannelRecord): Lists {
    Lists(MapOf(rec.bans), MapOf(rec.exceptions), MapOf(rec.invexes), MapOf(rec.quiets))
  }

  function Restore(ch: ChanState, rec: ChannelRecord): ChanState {
    RestoreState(ch, rec.topic, rec.modeWord, rec.key, rec.limit, ListsOf(rec))
  }

  /** The channel as it comes back: all its settings, nobody in it. */
  function Dormant(ch: ChanState, now: Int64): ChanState {
    ch.(createdAt := now, members := map[], invites := {})
  }

  /** Persisting a channel and restoring the record into a fresh one loses nothing but the members, the
      invitations and the creation time. */
  lemma PersistRestore(ch: ChanState, o: ListOrders, name: string, now: Int64)
    requires OrdersLists(o, ch.lists)
    ensures Restore(NewChan(name, now), RecordOf(ch, o)) == Dormant(ch, now).(name := name)
  {
    ModeWordSurvives(ch);
    MasksSurvive(ch.lists.bans, o.bans);
    MasksSurvive(ch.lists.exceptions, o.exceptions);
    MasksSurvive(ch.lists.invexes, o.invexes);
    MasksSurvive(ch.lists.quiets, o.quiets);
  }

  // ----- a whole restart -----

  function RestoreOne(w: WorldState, rec: ChannelRecord, now: Int64): WorldState {
    var made := w.EnsureChannel(rec.name, now);
    made.(chans := made.chans[w.Key(rec.name) := Restore(made.chans[w.Key(rec.name)], rec)])
  }

  function RestoreAll(w: WorldState, recs: seq<ChannelRecord>, clock: nat -> Int64, k: nat): WorldState
    decreases |recs|
  {
    if recs == [] then w else RestoreAll(RestoreOne(w, recs[0], clock(k)), recs[1..], clock, k + 1)
  }

  /** The records of the channels in `keys`, each written at some point with some list orders. */
  ghost predicate Writes(recs: seq<ChannelRecord>, w: WorldState, keys: seq<string>, orders: seq<ListOrders>) {
    && |recs| == |keys| == |orders|
    && forall i :: 0 <= i < |keys| ==> RecordAt(recs[i], w, keys[i], orders[i])
  }

  ghost predicate RecordAt(rec: ChannelRecord, w: WorldState, c: string, o: ListOrders) {
    c in w.chans && OrdersLists(o, w.chans[c].lists) && rec == RecordOf(w.chans[c], o)
  }

  /** Channel `c` is back in `w'` as it was in `w`, emptied. */
  ghost predicate IsBack(w: WorldState, w': WorldState, c: string) {
    c in w.chans && c in w'.chans && exists at :: w'.chans[c] == Dormant(w.chans[c], at)
  }

  lemma RestoreOneBack(w: WorldState, boot: WorldState, rec: ChannelRecord, c: string, o: ListOrders, now: Int64)
    requires w.Valid() && boot.mapping == w.mapping && RecordAt(rec, w, c, o) && c !in boot.chans
    ensures var boot' := RestoreOne(boot, rec, now);
            && boot'.chans == boot.chans[c := Dormant(w.chans[c], now)]
            && boot'.mapping == boot.mapping && boot'.users == boot.users
  {
    assert w.Key(w.chans[c].name) == c;
    PersistRestore(w.chans[c], o, rec.name, now);
  }

  /** `end` has the channels of `boot`, untouched, and the channels of `w` with the given keys. */
  ghost predicate BroughtBack(w: WorldState, boot: WorldState, keys: seq<string>, end: WorldState) {
    && (forall c :: c in end.chans <==> c in boot.chans || c in keys)
    && (forall c :: c in boot.chans && c in end.chans ==> end.chans[c] == boot.chans[c])
    && (forall c :: c in keys ==> IsBack(w, end, c))
  }

  lemma BroughtOneMore(w: WorldState, boot: WorldState, boot': WorldState, keys: seq<string>, now: Int64,
                       end: WorldState)
    requires keys != [] && keys[0] in w.chans && keys[0] !in boot.chans
    requires boot'.chans == boot.chans[keys[0] := Dormant(w.chans[keys[0]], now)]
    requires BroughtBack(w, boot', keys[1..], end)
    ensures BroughtBack(w, boot, keys, end)
  {
    assert forall c :: c in keys <==> c == keys[0] || c in keys[1..];
    assert IsBack(w, end, keys[0]) by {
      assert end.chans[keys[0]] == Dormant(w.chans[keys[0]], now);
    }
  }

  lemma WritesRest(recs: seq<ChannelRecord>, w: WorldState, keys: seq<string>, orders: seq<ListOrders>)
    requires Writes(recs, w, keys, orders) && recs != []
    ensures RecordAt(recs[0], w, keys[0], orders[0]) && Writes(recs[1..], w, keys[1..], orders[1..])
  {
    forall i | 0 <= i < |keys[1..]| ensures RecordAt(recs[1..][i], w, keys[1..][i], orders[1..][i]) {
      assert RecordAt(recs[i + 1], w, keys[i + 1], orders[i + 1]);
    }
  }

  lemma {:induction false} RestoreAllBack(w: WorldState, boot: WorldState, recs: seq<ChannelRecord>, keys: seq<string>,
                                          orders: seq<ListOrders>, clock: nat -> Int64, k: nat)
    requires w.Valid() && boot.mapping == w.mapping && Writes(recs, w, keys, orders)
    requires NoDups(keys) && forall c :: c in keys ==> c !in boot.chans
    ensures BroughtBack(w, boot, keys, RestoreAll(boot, recs, clock, k))
    decreases |recs|
  {
    if recs != [] {
      var boot' := RestoreOne(boot, recs[0], clock(k));
      WritesRest(recs, w, keys, orders);
      RestoreOneBack(w, boot, recs[0], keys[0], orders[0], clock(k));
      RestoreAllBack(w, boot', recs[1..], keys[1..], orders[1..], clock, k + 1);
      BroughtOneMore(w, boot, boot', keys, clock(k), RestoreAll(boot', recs[1..], clock, k + 1));
    }
  }

  /** A restart from records of every channel, listed in any order, brings back exactly the channels
      there were, each with its topic, modes, key, limit and mask lists, and nobody in it. */
  lemma RestartKeepsChannels(w: WorldState, recs: seq<ChannelRecord>, keys: seq<string>, orders: seq<ListOrders>,
                             clock: nat -> Int64)
    requires w.Valid() && Enumerates(keys, w.chans.Keys) && Writes(recs, w, keys, orders)
    ensures var end := RestoreAll(NewWorld(w.mapping), recs, clock, 0);
            end.chans.Keys == w.chans.Keys && forall c :: c in w.chans ==> IsBack(w, end, c)
  {
    RestoreAllBack(w, NewWorld(w.mapping), recs, keys, orders, clock, 0);
  }
}
