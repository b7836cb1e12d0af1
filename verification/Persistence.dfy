/** Writing channels to records. */
module Persistence {
  import opened Prelude
  import opened State
  import opened Records
  import opened Channel
  import opened Numbers
  import W = World

  /** banRecordsFromMap: `order` is the order in which the map was visited. */
  method BanRecordsFromMap(masks: Masks) returns (records: seq<BanRecord>, ghost order: seq<string>)
    ensures Enumerates(order, masks.Keys) && records == RecordsOf(masks, order)
    ensures MapOf(records) == masks
  {
    records, order := [], [];
    var todo := masks.Keys;
    while todo != {}
      invariant todo <= masks.Keys && Enumerates(order, masks.Keys - todo)
      invariant records == RecordsOf(masks, order)
    {
      var mask :| mask in todo;
      RecordsAppend(masks, order, mask);
      records, order := records + [BanRecord(mask, masks[mask])], order + [mask];
      todo := todo - {mask};
    }
    MasksSurvive(masks, order);
  }

  /** banRecordsToMap. */
  method BanRecordsToMap(records: seq<BanRecord>) returns (masks: Masks)
    ensures masks == MapOf(records)
  {
    masks := map[];
    for i := 0 to |records|
      invariant masks == MapOf(records[..i])
    {
      SliceAppend(records, i);
      assert records[..i + 1][..i] == records[..i];
      masks := masks[records[i].mask := records[i].setAt];
    }
    assert records[..|records|] == records;
  }

  /** persistChannel: the record handed to the store, from which the channel can be brought back. */
  method PersistChannel(ch: Channel) returns (rec: ChannelRecord, ghost o: ListOrders)
    ensures OrdersLists(o, ch.State().lists) && rec == RecordOf(ch.State(), o)
    ensures forall now: Int64 :: Restore(NewChan(rec.name, now), rec) == Dormant(ch.State(), now)
  {
    var modeWord, params := ch.ModeString();
    var bans, b := BanRecordsFromMap(ch.bans);
    var exceptions, e := BanRecordsFromMap(ch.exceptions);
    var invexes, i := BanRecordsFromMap(ch.invexes);
    var quiets, q := BanRecordsFromMap(ch.quiets);
    o := ListOrders(b, e, i, q);
    rec := ChannelRecord(ch.name, Topic(ch.topic, ch.topicSetBy, ch.topicSetAt), modeWord, ch.key, ch.limit,
                         bans, exceptions, invexes, quiets);
    forall now: Int64 ensures Restore(NewChan(rec.name, now), rec) == Dormant(ch.State(), now) {
      PersistRestore(ch.State(), o, rec.name, now);
    }
  }

  /** Filling a restored channel from its record. */
  method Hydrate(w: W.World, ch: Channel, ghost c: string, rec: ChannelRecord)
    requires w.ChansLinked() && c in w.byChannel && w.byChannel[c] == ch
    modifies w`model, ch
    ensures w.ChansLinked() && w.model == WithChan(old(w.model), c, Restore(old(w.model).chans[c], rec))
  {
    var bans := BanRecordsToMap(rec.bans);
    var exceptions := BanRecordsToMap(rec.exceptions);
    var invexes := BanRecordsToMap(rec.invexes);
    var quiets := BanRecordsToMap(rec.quiets);
    ch.RestoreState(rec.topic.text, rec.topic.setBy, rec.topic.setAt, rec.modeWord, rec.key, rec.limit,
                    bans, exceptions, invexes, quiets);
    w.Refresh(c);
  }

  method RestoreRecord(w: W.World, rec: ChannelRecord, now: Int64)
    requires w.ChansLinked() && w.mapping == w.model.mapping
    modifies w`byChannel, w`model, w.byChannel.Values
    ensures w.ChansLinked() && w.mapping == w.model.mapping && w.model == RestoreOne(old(w.model), rec, now)
    ensures forall ch :: ch in w.byChannel.Values ==> ch in old(w.byChannel.Values) || fresh(ch)
  {
    var ch, created := w.EnsureChannel(rec.name, now);
    Hydrate(w, ch, w.model.Key(rec.name), rec);
  }

  /** restorePersistentChannels, at boot: `clock(i)` is the time at which record i is restored. */
  method RestorePersistentChannels(w: W.World, records: seq<ChannelRecord>, ghost clock: nat -> Int64,
                                   times: seq<Int64>)
    requires w.ChansLinked() && w.mapping == w.model.mapping
    requires |times| == |records| && forall i :: 0 <= i < |times| ==> times[i] == clock(i)
    modifies w`byChannel, w`model, w.byChannel.Values
    ensures w.ChansLinked() && w.model == RestoreAll(old(w.model), records, clock, 0)
  {
    for i := 0 to |records|
      invariant w.ChansLinked() && w.mapping == w.model.mapping
      invariant forall ch :: ch in w.byChannel.Values ==> ch in old(w.byChannel.Values) || fresh(ch)
      invariant RestoreAll(w.model, records[i..], clock, i) == RestoreAll(old(w.model), records, clock, 0)
    {
      assert records[i..][1..] == records[i + 1..];
      RestoreRecord(w, records[i], times[i]);
    }
  }
}
