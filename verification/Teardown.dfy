/** The end of a client connection: its channels are told and left one by one, then the user record goes. */
module Teardown {
  import opened Prelude
  import opened State
  import opened Channel
  import opened FanOut
  import W = World

  // ----- leaving channels one by one -----

  /** The channels that do not outlive the departure of the user. */
  function Doomed(w: WorldState, id: UserID): set<string> {
    set c | c in w.chans && !w.Outlives(w.chans[c], id)
  }

  function Left(chans: map<string, ChanState>, id: UserID, keys: seq<string>,
                doomed: set<string>): map<string, ChanState>
  {
    map c | c in chans && !(c in keys && c in doomed) :: if c in keys then chans[c].RemoveMember(id) else chans[c]
  }

  /** The user has left the channels `keys` (of which it was a member) and no others yet. */
  function PartFirst(w: WorldState, id: UserID, keys: seq<string>): WorldState {
    w.(chans := Left(w.chans, id, keys, Doomed(w, id)))
  }

  /** Every channel has a name and is filed under its fold. */
  ghost predicate WellNamed(w: WorldState) {
    forall c :: c in w.chans ==> w.chans[c].name != "" && w.Key(w.chans[c].name) == c
  }

  lemma LeftOneMore(chans: map<string, ChanState>, id: UserID, keys: seq<string>, doomed: set<string>, c: string)
    requires c in chans && c !in keys
    ensures c in Left(chans, id, keys, doomed) && Left(chans, id, keys, doomed)[c] == chans[c]
    ensures Left(chans, id, keys + [c], doomed)
            == if c in doomed then Left(chans, id, keys, doomed) - {c}
              else Left(chans, id, keys, doomed)[c := chans[c].RemoveMember(id)]
  {
    assert forall d :: d in keys + [c] <==> d in keys || d == c;
  }

  /** PartChannel for a member, by whether the channel outlives it. */
  lemma PartMember(w: WorldState, id: UserID, name: string, c: string)
    requires w.Key(name) == c && c in w.chans && w.chans[c].name == name != "" && id in w.chans[c].members
    ensures w.PartChannel(id, name)
            == w.(chans := if w.Outlives(w.chans[c], id) then w.chans[c := w.chans[c].RemoveMember(id)]
              else w.chans - {c})
  {
  }

  lemma PartNext(w: WorldState, id: UserID, keys: seq<string>, c: string)
    requires WellNamed(w) && c in w.chans && c !in keys && id in w.chans[c].members
    ensures PartFirst(w, id, keys).PartChannel(id, w.chans[c].name) == PartFirst(w, id, keys + [c])
  {
    LeftOneMore(w.chans, id, keys, Doomed(w, id), c);
    PartMember(PartFirst(w, id, keys), id, w.chans[c].name, c);
  }

  lemma PartAllIsLeft(w: WorldState, id: UserID, keys: seq<string>, c: string)
    requires Enumerates(keys, w.ChannelsOf(id))
    ensures var a, b := Left(w.chans, id, keys, Doomed(w, id)), w.PartAll(id).chans;
            (c in a <==> c in b) && (c in a ==> a[c] == b[c])
  {
    assert c in keys <==> c in w.ChannelsOf(id);
    if c in w.chans && id !in w.chans[c].members {
      NotMember(w.chans[c], id);
    }
  }

  lemma PartEvery(w: WorldState, id: UserID, keys: seq<string>)
    requires Enumerates(keys, w.ChannelsOf(id))
    ensures PartFirst(w, id, keys) == w.PartAll(id)
  {
    var a, b := Left(w.chans, id, keys, Doomed(w, id)), w.PartAll(id).chans;
    forall c ensures (c in a <==> c in b) && (c in a ==> a[c] == b[c]) {
      PartAllIsLeft(w, id, keys, c);
    }
    assert a == b;
  }

  /** Leaving the channels under these keys one after the other. */
  function PartEach(w: WorldState, id: UserID, names: seq<string>): WorldState
    decreases |names|
  {
    if names == [] then w else PartEach(w, id, names[..|names| - 1]).PartChannel(id, names[|names| - 1])
  }

  ghost predicate InEach(w: WorldState, id: UserID, keys: seq<string>) {
    forall i :: 0 <= i < |keys| ==> keys[i] in w.chans && id in w.chans[keys[i]].members
  }

  function NamesOf(w: WorldState, keys: seq<string>): seq<string>
    requires forall i :: 0 <= i < |keys| ==> keys[i] in w.chans
  {
    seq(|keys|, i requires 0 <= i < |keys| => w.chans[keys[i]].name)
  }

  lemma {:induction false} PartEachIsPartFirst(w: WorldState, id: UserID, keys: seq<string>)
    requires WellNamed(w) && NoDups(keys) && InEach(w, id, keys)
    ensures PartEach(w, id, NamesOf(w, keys)) == PartFirst(w, id, keys)
    decreases |keys|
  {
    if keys == [] {
      PartNone(w, id);
    } else {
      var front, c := keys[..|keys| - 1], keys[|keys| - 1];
      assert keys == front + [c];
      assert NamesOf(w, keys)[..|keys| - 1] == NamesOf(w, front);
      PartEachIsPartFirst(w, id, front);
      PartNext(w, id, front, c);
    }
  }

  /** Leaving the channels one by one, in any order, is leaving them all at once. */
  lemma OneByOne(w: WorldState, id: UserID, keys: seq<string>)
    requires WellNamed(w) && Enumerates(keys, w.ChannelsOf(id))
    ensures InEach(w, id, keys) && PartEach(w, id, NamesOf(w, keys)) == w.PartAll(id)
  {
    forall i | 0 <= i < |keys| ensures keys[i] in w.chans && id in w.chans[keys[i]].members {
      assert keys[i] in keys && keys[i] in w.ChannelsOf(id);
    }
    PartEachIsPartFirst(w, id, keys);
    PartEvery(w, id, keys);
  }

  lemma NotMember(ch: ChanState, id: UserID)
    requires id !in ch.members
    ensures ch.RemoveMember(id) == ch
  {
    assert ch.members - {id} == ch.members;
  }

  lemma PartNone(w: WorldState, id: UserID)
    ensures PartFirst(w, id, []) == w
  {
    assert PartFirst(w, id, []).chans == w.chans;
  }

  // ----- broadcastQuit and close -----

  /** The members of one channel; `was` is the world when the walk began. */
  method TellMembers(ch: Channel, ghost was: WorldState, ghost c: string, ghost sender: UserID, conns: set<UserID>,
                     out: seq<Handed>, seen: set<UserID>) returns (out': seq<Handed>, seen': set<UserID>)
    requires c in was.chans && ch.State() == was.chans[c] && sender in seen
    requires NoRepeats(out) && forall id :: HandedTo(out, id) ==> id in seen
    ensures sender in seen' && Added(out, out', seen - {sender}, seen' - {sender}, AnyoneElse, was, conns, sender, c)
  {
    out', seen' := out, seen;
    var todo := ch.members.Keys;
    while todo != {}
      invariant todo <= ch.members.Keys && NoRepeats(out')
      invariant forall id :: id in seen' <==> id in seen || (id in ch.members && id !in todo)
      invariant forall id :: HandedTo(out', id) <==> HandedTo(out, id) || (id in seen' && id !in seen && id in conns)
      invariant forall h :: h in out' ==> h in out || (h.to in ch.members && !h.anonymous)
    {
      var id :| id in todo;
      todo := todo - {id};
      if id in seen' {
        continue;
      }
      seen' := seen' + {id};
      if id in conns {
        HandOne(out', Handed(id, false));
        out' := out' + [Handed(id, false)];
      }
    }
  }

  /** What the walk leaves to do: channel i and those after it are as they were. */
  ghost predicate Ahead(w: W.World, chans: seq<Channel>, keys: seq<string>, i: nat)
    reads w`byChannel
  {
    |chans| == |keys| && forall j :: i <= j < |keys| ==> keys[j] in w.byChannel && w.byChannel[keys[j]] == chans[j]
  }

  /** Leaving one channel of the walk. */
  method LeaveNext(w: W.World, ghost was: WorldState, id: UserID, chans: seq<Channel>, ghost keys: seq<string>, i: nat)
    requires w.ChansLinked() && w.mapping == w.model.mapping && WellNamed(was)
    requires i < |keys| && Ahead(w, chans, keys, i) && Enumerates(keys, was.ChannelsOf(id))
    requires w.model == PartFirst(was, id, keys[..i])
    modifies w`byChannel, w`model, w.byChannel.Values
    ensures w.ChansLinked() && w.mapping == w.model.mapping
    ensures Ahead(w, chans, keys, i + 1) && w.model == PartFirst(was, id, keys[..i + 1])
    ensures w.byChannel.Values <= old(w.byChannel.Values)
  {
    ghost var c := keys[i];
    assert c in was.ChannelsOf(id) by {
      assert keys[i] in keys;
    }
    SliceAppend(keys, i);
    PartNext(was, id, keys[..i], c);
    assert chans[i].State() == w.model.chans[c] == was.chans[c];
    assert w.model.Key(chans[i].name) == c;
    var ch, dropped := w.PartChannel(id, chans[i].name);
  }

  /** broadcastQuit: the walk over the channels the user was in when it began. */
  method BroadcastQuit(w: W.World, id: UserID, conns: set<UserID>) returns (out: seq<Handed>)
    requires w.ChansLinked() && w.mapping == w.model.mapping && WellNamed(w.model)
    modifies w`byChannel, w`model, w.byChannel.Values
    ensures w.ChansLinked() && w.mapping == w.model.mapping && w.model == old(w.model).PartAll(id)
    ensures ExactlyOnce(out, AnyoneElse, old(w.model), conns, id)
  {
    ghost var was := w.model;
    var chans, keys := w.UserChannels(id);
    var seen := {id};
    out := [];
    PartNone(was, id);
    for i := 0 to |chans|
      invariant w.ChansLinked() && w.mapping == w.model.mapping && w.byChannel.Values <= old(w.byChannel.Values)
      invariant Ahead(w, chans, keys, i) && w.model == PartFirst(was, id, keys[..i])
      invariant id in seen && Progress(out, seen - {id}, AnyoneElse, was, conns, id, keys[..i])
    {
      out, seen := QuitNext(w, was, id, chans, keys, i, conns, out, seen);
    }
    assert keys[..|keys|] == keys;
    PartEvery(was, id, keys);
    AllChannels(out, seen - {id}, AnyoneElse, was, conns, id, keys);
  }

  /** One channel of the walk: its members are told, and the user leaves it. */
  method QuitNext(w: W.World, ghost was: WorldState, id: UserID, chans: seq<Channel>, ghost keys: seq<string>, i: nat,
                  conns: set<UserID>, out: seq<Handed>, seen: set<UserID>) returns (out': seq<Handed>,
                  seen': set<UserID>)
    requires w.ChansLinked() && w.mapping == w.model.mapping && WellNamed(was)
    requires i < |keys| && Ahead(w, chans, keys, i) && Enumerates(keys, was.ChannelsOf(id))
    requires w.model == PartFirst(was, id, keys[..i])
    requires id in seen && Progress(out, seen - {id}, AnyoneElse, was, conns, id, keys[..i])
    modifies w`byChannel, w`model, w.byChannel.Values
    ensures w.ChansLinked() && w.mapping == w.model.mapping && w.byChannel.Values <= old(w.byChannel.Values)
    ensures Ahead(w, chans, keys, i + 1) && w.model == PartFirst(was, id, keys[..i + 1])
    ensures id in seen' && Progress(out', seen' - {id}, AnyoneElse, was, conns, id, keys[..i + 1])
  {
    ghost var c := keys[i];
    assert c in was.ChannelsOf(id) by {
      assert keys[i] in keys;
    }
    LeftOneMore(was.chans, id, keys[..i], Doomed(was, id), c);
    out', seen' := TellMembers(chans[i], was, c, id, conns, out, seen);
    SliceAppend(keys, i);
    NextChannel(out, out', seen - {id}, seen' - {id}, AnyoneElse, was, conns, id, keys[..i], c);
    LeaveNext(w, was, id, chans, keys, i);
  }
}
