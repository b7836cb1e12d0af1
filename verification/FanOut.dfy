/** Who is told when a user quits or changes nick: every local connection that shares a channel with the
    user, once, however many channels overlap. */
module FanOut {
  import opened Prelude
  import opened Message
  import opened State
  import opened Channel
  import W = World

  /** A message handed to a connection, under the sender's own prefix or the anonymous one. */
  datatype Handed = Handed(to: UserID, anonymous: bool)

  predicate Share(w: WorldState, c: string, a: UserID, b: UserID) {
    c in w.chans && a in w.chans[c].members && b in w.chans[c].members
  }

  /** A local user other than the sender. */
  predicate Peer(w: WorldState, sender: UserID, id: UserID) {
    id != sender && id in w.users && !w.users[id].IsRemote()
  }

  /** Who may be told at all: the walk of deliverPerUserChannels skips remote and unknown users, the walk
      of broadcastQuit only the sender. */
  datatype Audience = LocalPeers | AnyoneElse

  predicate Eligible(a: Audience, w: WorldState, sender: UserID, id: UserID) {
    match a
    case LocalPeers => Peer(w, sender, id)
    case AnyoneElse => id != sender
  }

  /** On an anonymous channel the first walk hides the sender; the second never does. */
  predicate Masked(a: Audience, ch: ChanState, anonymous: bool) {
    match a
    case LocalPeers => anonymous == ch.modes.anonymous
    case AnyoneElse => !anonymous
  }

  ghost predicate NoRepeats(out: seq<Handed>) {
    forall i, j :: 0 <= i < j < |out| ==> out[i].to != out[j].to
  }

  ghost predicate HandedTo(out: seq<Handed>, id: UserID) {
    exists h :: h in out && h.to == id
  }

  /** Each connection in the audience whose user shares a channel gets the message exactly once and nobody else gets
      it, masked as some shared channel demands. */
  ghost predicate ExactlyOnce(out: seq<Handed>, a: Audience, w: WorldState, conns: set<UserID>, sender: UserID) {
    && NoRepeats(out)
    && (forall id :: HandedTo(out, id) <==>
       Eligible(a, w, sender, id) && id in conns && exists c :: Share(w, c, sender, id))
    && (forall h :: h in out ==> exists c :: Share(w, c, sender, h.to) && Masked(a, w.chans[c], h.anonymous))
  }

  /** Who is told of a QUIT or NICK that came over a link: local users other than the sender, who share a channel
      with the sender. They see the anonymous prefix when all the channels they share hide names, and the sender's
      own when none does. */
  lemma WhoSeesTheName(out: seq<Handed>, w: WorldState, conns: set<UserID>, sender: UserID, h: Handed)
    requires ExactlyOnce(out, LocalPeers, w, conns, sender) && h in out
    ensures h.to != sender && h.to in conns && h.to in w.users && w.users[h.to].homeServer == ""
    ensures exists c :: c in w.chans && sender in w.chans[c].members && h.to in w.chans[c].members
    ensures (forall c :: Share(w, c, sender, h.to) ==> w.chans[c].modes.anonymous) ==> h.anonymous
    ensures (forall c :: Share(w, c, sender, h.to) ==> !w.chans[c].modes.anonymous) ==> !h.anonymous
  {
    assert HandedTo(out, h.to);
  }

  // ----- deliverPerUserChannels -----

  /** The peers met in the first channels of the walk. */
  ghost predicate Met(a: Audience, w: WorldState, sender: UserID, keys: seq<string>, id: UserID) {
    Eligible(a, w, sender, id) && exists c :: c in keys && Share(w, c, sender, id)
  }

  /** After the channels `keys`: `seen` are the peers met, and the connected ones of them were handed the
      message once. */
  ghost predicate Progress(out: seq<Handed>, seen: set<UserID>, a: Audience, w: WorldState, conns: set<UserID>,
                           sender: UserID, keys: seq<string>)
  {
    && NoRepeats(out)
    && (forall id :: id in seen <==> Met(a, w, sender, keys, id))
    && (forall id :: HandedTo(out, id) <==> id in seen && id in conns)
    && (forall h :: h in out ==> Justified(a, w, sender, keys, h))
  }

  ghost predicate Justified(a: Audience, w: WorldState, sender: UserID, keys: seq<string>, h: Handed) {
    exists c :: c in keys && Share(w, c, sender, h.to) && Masked(a, w.chans[c], h.anonymous)
  }

  /** What one channel adds. */
  ghost predicate Added(out: seq<Handed>, out': seq<Handed>, seen: set<UserID>, seen': set<UserID>, a: Audience,
                        w: WorldState,
                        conns: set<UserID>, sender: UserID, c: string)
    requires c in w.chans
  {
    && NoRepeats(out')
    && (forall id :: id in seen' <==> id in seen || (id in w.chans[c].members && Eligible(a, w, sender, id)))
    && (forall id :: HandedTo(out', id) <==> HandedTo(out, id) || (id in seen' && id !in seen && id in conns))
    && (forall h :: h in out' ==> h in out || (h.to in w.chans[c].members && Masked(a, w.chans[c], h.anonymous)))
  }

  lemma HandOne(out: seq<Handed>, h: Handed)
    requires NoRepeats(out) && !HandedTo(out, h.to)
    ensures NoRepeats(out + [h])
    ensures forall id :: HandedTo(out + [h], id) <==> HandedTo(out, id) || id == h.to
  {
    var all := out + [h];
    forall id ensures HandedTo(all, id) <==> HandedTo(out, id) || id == h.to {
      if HandedTo(out, id) {
        var g :| g in out && g.to == id;
        assert g in all;
      }
      if id == h.to {
        assert h in all;
      }
    }
    forall i, j | 0 <= i < j < |all| ensures all[i].to != all[j].to {
      assert out[i] in out;
    }
  }

  lemma NextChannel(out: seq<Handed>, out': seq<Handed>, seen: set<UserID>, seen': set<UserID>, a: Audience,
                    w: WorldState,
                    conns: set<UserID>, sender: UserID, keys: seq<string>, c: string)
    requires Progress(out, seen, a, w, conns, sender, keys) && c in w.chans && sender in w.chans[c].members
    requires Added(out, out', seen, seen', a, w, conns, sender, c)
    ensures Progress(out', seen', a, w, conns, sender, keys + [c])
  {
    forall id ensures id in seen' <==> Met(a, w, sender, keys + [c], id) {
      if id in w.chans[c].members {
        assert c in keys + [c] && Share(w, c, sender, id);
      }
      if Met(a, w, sender, keys, id) {
        var d :| d in keys && Share(w, d, sender, id);
        assert d in keys + [c];
      }
    }
    forall h | h in out' ensures Justified(a, w, sender, keys + [c], h) {
      if h in out {
        var d :| d in keys && Share(w, d, sender, h.to) && Masked(a, w.chans[d], h.anonymous);
        assert d in keys + [c];
      } else {
        assert c in keys + [c] && Share(w, c, sender, h.to);
      }
    }
  }

  lemma AllChannels(out: seq<Handed>, seen: set<UserID>, a: Audience, w: WorldState, conns: set<UserID>, sender: UserID,
                    keys: seq<string>)
    requires Progress(out, seen, a, w, conns, sender, keys) && Enumerates(keys, w.ChannelsOf(sender))
    ensures ExactlyOnce(out, a, w, conns, sender)
  {
    forall id
      ensures HandedTo(out, id) <==> Eligible(a, w, sender, id) && id in conns && exists c :: Share(w, c, sender, id)
    {
      if c :| Share(w, c, sender, id) {
        assert c in keys;
      }
    }
    forall h | h in out ensures exists c :: Share(w, c, sender, h.to) && Masked(a, w.chans[c], h.anonymous) {
      assert Justified(a, w, sender, keys, h);
    }
  }

  /** The members of one channel of the walk. */
  method HandToMembers(w: W.World, ch: Channel, ghost c: string, sender: UserID, conns: set<UserID>,
                       out: seq<Handed>, seen: set<UserID>) returns (out': seq<Handed>, seen': set<UserID>)
    requires w.UsersLinked() && c in w.model.chans && ch.State() == w.model.chans[c]
    requires NoRepeats(out) && forall id :: HandedTo(out, id) ==> id in seen
    ensures Added(out, out', seen, seen', LocalPeers, w.model, conns, sender, c)
  {
    out', seen' := out, seen;
    var todo := ch.members.Keys;
    while todo != {}
      invariant todo <= ch.members.Keys && NoRepeats(out')
      invariant forall id :: id in seen' <==>
                id in seen || (id in ch.members && id !in todo && Peer(w.model, sender, id))
      invariant forall id :: HandedTo(out', id) <==> HandedTo(out, id) || (id in seen' && id !in seen && id in conns)
      invariant forall h :: h in out' ==> h in out || (h.to in ch.members && h.anonymous == ch.modes.anonymous)
    {
      var id :| id in todo;
      todo := todo - {id};
      if id in seen' || id == sender {
        continue;
      }
      if id !in w.byID || w.byID[id].homeServer != "" {
        continue;
      }
      seen' := seen' + {id};
      if id in conns {
        HandOne(out', Handed(id, ch.modes.anonymous));
        out' := out' + [Handed(id, ch.modes.anonymous)];
      }
    }
  }

  method DeliverPerUserChannels(w: W.World, conns: set<UserID>, prefix: string) returns (out: seq<Handed>)
    requires w.Valid()
    ensures match w.model.FindByNick(SenderOf(prefix))
            case None => out == []
            case Some(u) => ExactlyOnce(out, LocalPeers, w.model, conns, u.id)
  {
    var u := w.FindByNick(SenderOf(prefix));
    if u == null {
      return [];
    }
    var chans, keys := w.UserChannels(u.id);
    var seen: set<UserID> := {};
    out := [];
    for i := 0 to |chans|
      invariant Progress(out, seen, LocalPeers, w.model, conns, u.id, keys[..i])
    {
      assert keys[i] in keys;
      SliceAppend(keys, i);
      var out', seen' := HandToMembers(w, chans[i], keys[i], u.id, conns, out, seen);
      NextChannel(out, out', seen, seen', LocalPeers, w.model, conns, u.id, keys[..i], keys[i]);
      out, seen := out', seen';
    }
    assert keys[..|keys|] == keys;
    AllChannels(out, seen, LocalPeers, w.model, conns, u.id, keys);
  }
}
