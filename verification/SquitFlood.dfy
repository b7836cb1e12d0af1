/** The SQUIT flood: how the loss of a server spreads over a mesh of nodes, each of which forwards the
    news over all its links and ignores news it has seen within the last five seconds. */
module SquitFlood {
  import opened Prelude
  import opened State

  /** How long a seen entry lives, in nanoseconds. */
  const SQUIT_SEEN_TTL := 5_000_000_000

  datatype Loss = Loss(peer: string, reason: string)

  /** When each loss heard of stops being a repeat. */
  type Seen = map<Loss, int>

  function Purged(seen: Seen, now: int): Seen {
    map k | k in seen && now <= seen[k] :: seen[k]
  }

  /** squitSeenRecently: whether the loss is a repeat, after expired entries are dropped. */
  predicate IsRepeat(seen: Seen, loss: Loss, now: int) {
    loss in seen && now < seen[loss]
  }

  function Noted(seen: Seen, loss: Loss, now: int): Seen {
    if IsRepeat(seen, loss, now) then Purged(seen, now) else Purged(seen, now)[loss := now + SQUIT_SEEN_TTL]
  }

  /** Every user homed on the lost server is gone. */
  function RemoveHomed(w: WorldState, server: string): WorldState {
    w.(users := map id | id in w.users && w.users[id].homeServer != server :: w.users[id],
       nicks := map k | k in w.nicks && !(w.nicks[k] in w.users && w.users[w.nicks[k]].homeServer == server)
                  :: w.nicks[k])
  }

  ghost predicate NoneHomed(w: WorldState, server: string) {
    forall id :: id in w.users ==> w.users[id].homeServer != server
  }

  /** A missing reason reads "Net split". */
  function Normal(loss: Loss): Loss {
    if loss.reason == "" then loss.(reason := "Net split") else loss
  }

  // ----- a mesh of nodes -----

  /** Which peers each node has a link to. */
  type Topology = map<string, set<string>>

  ghost predicate Closed(links: Topology) {
    forall n, m :: n in links && m in links[n] ==> m in links
  }

  /** A SQUIT message on its way to a node. */
  datatype Packet = Packet(to: string, loss: Loss)

  /** Every node's world and seen entries, the messages in flight in any order, and the log of who
      forwarded what. */
  datatype Mesh = Mesh(worlds: map<string, WorldState>, seen: map<string, Seen>, flight: multiset<Packet>,
    forwards: multiset<(string, Loss)>)

  ghost predicate Covers(mesh: Mesh, links: Topology) {
    mesh.worlds.Keys == links.Keys && mesh.seen.Keys == links.Keys
  }

  function Sent(links: Topology, n: string, loss: Loss): set<Packet>
    requires n in links
  {
    set m | m in links[n] && m != loss.peer :: Packet(m, loss)
  }

  /** HandleSquit at node `n`. */
  function Hear(mesh: Mesh, links: Topology, n: string, heard: Loss, now: int): Mesh
    requires Covers(mesh, links) && n in links
  {
    var loss := Normal(heard);
    if loss.peer == "" then mesh
    else if IsRepeat(mesh.seen[n], loss, now) then mesh.(seen := mesh.seen[n := Noted(mesh.seen[n], loss, now)])
    else
      mesh.(worlds := mesh.worlds[n := RemoveHomed(mesh.worlds[n], loss.peer)],
            seen := mesh.seen[n := Noted(mesh.seen[n], loss, now)],
            flight := mesh.flight + multiset(Sent(links, n, loss)),
            forwards := mesh.forwards + multiset{(n, loss)})
  }

  datatype Delivery = Delivery(packet: Packet, now: int)

  /** One message in flight arrives. */
  function Deliver(mesh: Mesh, links: Topology, d: Delivery): Mesh
    requires Covers(mesh, links) && d.packet.to in links
  {
    Hear(mesh.(flight := mesh.flight - multiset{d.packet}), links, d.packet.to, d.packet.loss, d.now)
  }

  /** Deliveries of messages that are in flight, all before the first seen entry of the flood expires. */
  ghost predicate Runs(mesh: Mesh, links: Topology, start: int, ds: seq<Delivery>)
    requires Covers(mesh, links)
    decreases |ds|
  {
    ds == [] ||
    (&& ds[0].packet in mesh.flight && ds[0].packet.to in links
     && start <= ds[0].now < start + SQUIT_SEEN_TTL
     && Runs(Deliver(mesh, links, ds[0]), links, start, ds[1..]))
  }

  ghost function After(mesh: Mesh, links: Topology, start: int, ds: seq<Delivery>): Mesh
    requires Covers(mesh, links) && Runs(mesh, links, start, ds)
    decreases |ds|
  {
    if ds == [] then mesh else After(Deliver(mesh, links, ds[0]), links, start, ds[1..])
  }

  // ----- what every delivery keeps -----

  /** Node `n` has noted the loss since the flood started. */
  predicate Marked(mesh: Mesh, start: int, n: string, loss: Loss) {
    n in mesh.seen && loss in mesh.seen[n] && mesh.seen[n][loss] >= start + SQUIT_SEEN_TTL
  }

  lemma NotedMarks(seen: Seen, loss: Loss, other: Loss, start: int, now: int)
    requires start <= now < start + SQUIT_SEEN_TTL
    ensures other in seen && seen[other] >= start + SQUIT_SEEN_TTL ==>
              other in Noted(seen, loss, now) && Noted(seen, loss, now)[other] >= start + SQUIT_SEEN_TTL
    ensures loss in seen && seen[loss] >= start + SQUIT_SEEN_TTL ==> IsRepeat(seen, loss, now)
    ensures !IsRepeat(seen, loss, now) ==>
            loss in Noted(seen, loss, now) && Noted(seen, loss, now)[loss] >= start + SQUIT_SEEN_TTL
    ensures other != loss && other in Noted(seen, loss, now) ==>
            other in seen && Noted(seen, loss, now)[other] == seen[other]
    ensures IsRepeat(seen, loss, now) && loss in Noted(seen, loss, now) ==> Noted(seen, loss, now)[loss] == seen[loss]
  {
  }

  /** What is known of one node about one loss: until it has noted it, the loss is news to it; from then
      on it has nobody homed on the lost server, has forwarded the loss exactly once, and each of its
      other peers has noted it or is about to hear. */
  ghost predicate NodeInv(mesh: Mesh, links: Topology, start: int, loss: Loss, n: string)
    requires Covers(mesh, links) && n in links
  {
    if Marked(mesh, start, n, loss) then
      && NoneHomed(mesh.worlds[n], loss.peer)
      && mesh.forwards[(n, loss)] == 1
      && forall m :: m in links[n] && m != loss.peer ==> Marked(mesh, start, m, loss) || Packet(m, loss) in mesh.flight
    else
      && (loss in mesh.seen[n] ==> mesh.seen[n][loss] <= start)
      && mesh.forwards[(n, loss)] == 0
  }

  ghost predicate Inv(mesh: Mesh, links: Topology, start: int, loss: Loss)
    requires Covers(mesh, links)
  {
    forall n :: n in links ==> NodeInv(mesh, links, start, loss, n)
  }

  lemma RemoveHomedWorks(w: WorldState, server: string, other: string)
    ensures NoneHomed(RemoveHomed(w, server), server)
    ensures NoneHomed(w, other) ==> NoneHomed(RemoveHomed(w, server), other)
  {
  }

  /** Hearing of any loss keeps every mark. */
  lemma MarksStay(mesh: Mesh, links: Topology, start: int, n: string, heard: Loss, now: int, m: string, loss: Loss)
    requires Covers(mesh, links) && n in links && start <= now < start + SQUIT_SEEN_TTL
    requires Marked(mesh, start, m, loss)
    ensures Marked(Hear(mesh, links, n, heard, now), start, m, loss)
  {
    NotedMarks(mesh.seen[n], Normal(heard), loss, start, now);
  }

  ghost predicate InWindow(start: int, now: int) {
    start <= now < start + SQUIT_SEEN_TTL
  }

  /** A proper loss: a named server and a reason. */
  predicate Proper(loss: Loss) {
    loss.peer != "" && loss.reason != ""
  }

  /** The hearing node itself, for the loss it hears of. */
  lemma HearerKeeps(mesh: Mesh, links: Topology, start: int, loss: Loss, n: string, heard: Loss, now: int)
    requires Covers(mesh, links) && n in links && InWindow(start, now) && Proper(loss) && Normal(heard) == loss
    requires NodeInv(mesh, links, start, loss, n)
    ensures var mesh' := Hear(mesh, links, n, heard, now);
            Marked(mesh', start, n, loss) && NodeInv(mesh', links, start, loss, n)
  {
    NotedMarks(mesh.seen[n], loss, loss, start, now);
    RemoveHomedWorks(mesh.worlds[n], loss.peer, loss.peer);
    var mesh' := Hear(mesh, links, n, heard, now);
    forall m | m in links[n] && m != loss.peer
      ensures Marked(mesh', start, m, loss) || Packet(m, loss) in mesh'.flight
    {
      if Marked(mesh, start, n, loss) && Marked(mesh, start, m, loss) {
        MarksStay(mesh, links, start, n, heard, now, m, loss);
      }
      assert !IsRepeat(mesh.seen[n], loss, now) ==> Packet(m, loss) in Sent(links, n, loss);
    }
  }

  /** Any other node, or a node that hears of another loss. */
  lemma BystanderKeeps(mesh: Mesh, links: Topology, start: int, loss: Loss, n: string, hearer: string, heard: Loss,
                       now: int)
    requires Covers(mesh, links) && n in links && hearer in links && InWindow(start, now) && Proper(loss)
    requires n != hearer || Normal(heard) != loss
    requires NodeInv(mesh, links, start, loss, n)
    ensures NodeInv(Hear(mesh, links, hearer, heard, now), links, start, loss, n)
  {
    NotedMarks(mesh.seen[hearer], Normal(heard), loss, start, now);
    RemoveHomedWorks(mesh.worlds[hearer], Normal(heard).peer, loss.peer);
    var mesh' := Hear(mesh, links, hearer, heard, now);
    if Marked(mesh, start, n, loss) {
      forall m | m in links[n] && m != loss.peer
        ensures Marked(mesh', start, m, loss) || Packet(m, loss) in mesh'.flight
      {
        if Marked(mesh, start, m, loss) {
          MarksStay(mesh, links, start, hearer, heard, now, m, loss);
        }
      }
    }
  }

  /** Taking the delivered message out of flight is made good by its receiver noting the loss. */
  lemma DeliverKeeps(mesh: Mesh, links: Topology, start: int, loss: Loss, d: Delivery)
    requires Covers(mesh, links) && Inv(mesh, links, start, loss) && Proper(loss)
    requires d.packet.to in links && InWindow(start, d.now)
    ensures Inv(Deliver(mesh, links, d), links, start, loss)
  {
    forall n | n in links ensures NodeInv(Deliver(mesh, links, d), links, start, loss, n) {
      assert NodeInv(mesh, links, start, loss, n) && NodeInv(mesh, links, start, loss, d.packet.to);
      DeliverKeepsNode(mesh, links, start, loss, d, n);
    }
  }

  lemma DeliverKeepsNode(mesh: Mesh, links: Topology, start: int, loss: Loss, d: Delivery, n: string)
    requires Covers(mesh, links) && Proper(loss) && d.packet.to in links && InWindow(start, d.now) && n in links
    requires NodeInv(mesh, links, start, loss, n) && NodeInv(mesh, links, start, loss, d.packet.to)
    ensures NodeInv(Deliver(mesh, links, d), links, start, loss, n)
  {
    var t, heard := d.packet.to, d.packet.loss;
    var taken := mesh.(flight := mesh.flight - multiset{d.packet});
    // The same node with the message still in flight, so that its peers' part of the invariant holds.
    if n == t && Normal(heard) == loss {
      HearerKeeps(mesh, links, start, loss, n, heard, d.now);
    } else {
      BystanderKeeps(mesh, links, start, loss, n, t, heard, d.now);
    }
    SameButFlight(mesh, taken, links, start, loss, n, t, heard, d.now);
    if Normal(heard) == loss {
      HearerKeeps(mesh, links, start, loss, t, heard, d.now);
    }
  }

  /** Messages in flight play no part in what hearing does to worlds and seen entries. */
  lemma SameButFlight(mesh: Mesh, taken: Mesh, links: Topology, start: int, loss: Loss, n: string, hearer: string,
                      heard: Loss, now: int)
    requires Covers(mesh, links) && hearer in links && n in links && taken == mesh.(flight := taken.flight)
    ensures var a, b := Hear(mesh, links, hearer, heard, now), Hear(taken, links, hearer, heard, now);
            && a == b.(flight := a.flight)
            && a.flight - mesh.flight == b.flight - taken.flight
  {
    var a, b := Hear(mesh, links, hearer, heard, now), Hear(taken, links, hearer, heard, now);
    assert a.flight - mesh.flight == b.flight - taken.flight;
  }

  lemma {:induction false} RunKeeps(mesh: Mesh, links: Topology, start: int, loss: Loss, ds: seq<Delivery>)
    requires Covers(mesh, links) && Inv(mesh, links, start, loss) && Proper(loss) && Runs(mesh, links, start, ds)
    ensures var end := After(mesh, links, start, ds);
            && Covers(end, links) && Inv(end, links, start, loss)
            && forall n :: Marked(mesh, start, n, loss) ==> Marked(end, start, n, loss)
    decreases |ds|
  {
    if ds != [] {
      var mesh' := Deliver(mesh, links, ds[0]);
      DeliverKeeps(mesh, links, start, loss, ds[0]);
      forall n | Marked(mesh, start, n, loss) ensures Marked(mesh', start, n, loss) {
        MarksStay(mesh.(flight := mesh.flight - multiset{ds[0].packet}), links, start, ds[0].packet.to,
                  ds[0].packet.loss, ds[0].now, n, loss);
      }
      RunKeeps(mesh', links, start, loss, ds[1..]);
    }
  }

  // ----- the flood of one loss -----

  /** No node has noted the loss within the last five seconds or forwarded it before. */
  ghost predicate IsNews(mesh: Mesh, links: Topology, start: int, loss: Loss)
    requires Covers(mesh, links)
  {
    forall n :: n in links ==> (loss in mesh.seen[n] ==> mesh.seen[n][loss] <= start) && mesh.forwards[(n, loss)] == 0
  }

  /** A chain of links from the originator that avoids the lost server. */
  ghost predicate IsPath(links: Topology, path: seq<string>, origin: string, lost: string) {
    && path != [] && path[0] == origin
    && (forall i :: 0 <= i < |path| ==> path[i] in links)
    && (forall i :: 0 < i < |path| ==> path[i] != lost && path[i] in links[path[i - 1]])
  }

  lemma {:induction false} MarksSpread(mesh: Mesh, links: Topology, start: int, loss: Loss, path: seq<string>, k: nat)
    requires Covers(mesh, links) && Inv(mesh, links, start, loss) && mesh.flight == multiset{}
    requires path != [] && IsPath(links, path, path[0], loss.peer) && Marked(mesh, start, path[0], loss) && k < |path|
    ensures Marked(mesh, start, path[k], loss)
  {
    if k > 0 {
      MarksSpread(mesh, links, start, loss, path, k - 1);
      assert NodeInv(mesh, links, start, loss, path[k - 1]);
    }
  }

  lemma OriginKeeps(mesh: Mesh, links: Topology, start: int, origin: string, heard: Loss)
    requires Covers(mesh, links) && origin in links && heard.peer != ""
    requires IsNews(mesh, links, start, Normal(heard))
    ensures var mesh' := Hear(mesh, links, origin, heard, start);
            Inv(mesh', links, start, Normal(heard)) && Marked(mesh', start, origin, Normal(heard))
  {
    var loss := Normal(heard);
    forall n | n in links ensures NodeInv(Hear(mesh, links, origin, heard, start), links, start, loss, n) {
      if n == origin {
        HearerKeeps(mesh, links, start, loss, origin, heard, start);
      } else {
        BystanderKeeps(mesh, links, start, loss, n, origin, heard, start);
      }
    }
    HearerKeeps(mesh, links, start, loss, origin, heard, start);
  }

  /** When nothing is in flight, everyone connected to a node that noted the loss has forwarded it. */
  ghost predicate ReachedFrom(end: Mesh, links: Topology, origin: string, loss: Loss)
    requires Covers(end, links)
  {
    forall path: seq<string> :: IsPath(links, path, origin, loss.peer) ==>
      NoneHomed(end.worlds[path[|path| - 1]], loss.peer) && end.forwards[(path[|path| - 1], loss)] == 1
  }

  lemma AtRest(end: Mesh, links: Topology, start: int, origin: string, loss: Loss)
    requires Covers(end, links) && Inv(end, links, start, loss) && Marked(end, start, origin, loss)
             && end.flight == multiset{}
    ensures ReachedFrom(end, links, origin, loss)
  {
    forall path: seq<string> | IsPath(links, path, origin, loss.peer)
      ensures NoneHomed(end.worlds[path[|path| - 1]], loss.peer) && end.forwards[(path[|path| - 1], loss)] == 1
    {
      MarksSpread(end, links, start, loss, path, |path| - 1);
      assert NodeInv(end, links, start, loss, path[|path| - 1]);
    }
  }

  /** A node hears of a loss nobody has noted lately. However the resulting messages (and any others in
      flight) are delivered before the first seen entry expires, no node forwards the loss twice; and
      when nothing is left in flight, every node connected to the originator without going through the
      lost server has forwarded it once and has no user homed there. */
  lemma FloodReachesEveryone(mesh: Mesh, links: Topology, start: int, origin: string, heard: Loss, ds: seq<Delivery>)
    requires Covers(mesh, links) && origin in links && heard.peer != "" && IsNews(mesh, links, start, Normal(heard))
    requires Runs(Hear(mesh, links, origin, heard, start), links, start, ds)
    ensures var end, loss := After(Hear(mesh, links, origin, heard, start), links, start, ds), Normal(heard);
            && Covers(end, links)
            && (forall n :: n in links ==> end.forwards[(n, loss)] <= 1)
            && (end.flight == multiset{} ==> ReachedFrom(end, links, origin, loss))
  {
    var loss := Normal(heard);
    var mesh' := Hear(mesh, links, origin, heard, start);
    OriginKeeps(mesh, links, start, origin, heard);
    RunKeeps(mesh', links, start, loss, ds);
    var end := After(mesh', links, start, ds);
    forall n | n in links ensures end.forwards[(n, loss)] <= 1 {
      assert NodeInv(end, links, start, loss, n);
    }
    if end.flight == multiset{} {
      AtRest(end, links, start, origin, loss);
    }
  }

  // ----- the flood ends -----

  /** Every message in flight is about one of these losses and goes to a node of the mesh. */
  ghost predicate Within(mesh: Mesh, links: Topology, losses: set<Loss>) {
    forall p :: p in mesh.flight ==> Normal(p.loss) in losses && p.to in links
  }

  /** The (node, loss) pairs not yet noted. */
  function Unmarked(mesh: Mesh, links: Topology, start: int, losses: set<Loss>): set<(string, Loss)> {
    set n, loss | n in links && loss in losses && !Marked(mesh, start, n, loss) :: (n, loss)
  }

  /** Messages in flight, plus a full fan-out for every pair not yet noted. */
  function Fuel(mesh: Mesh, links: Topology, start: int, losses: set<Loss>): nat {
    |mesh.flight| + |Unmarked(mesh, links, start, losses)| * |links.Keys|
  }

  lemma {:induction false} PacketsCount(targets: set<string>, loss: Loss, packets: set<Packet>)
    requires packets == set m | m in targets :: Packet(m, loss)
    ensures |packets| == |targets|
    decreases targets
  {
    if targets == {} {
      assert packets == {};
    } else {
      var m :| m in targets;
      PacketsCount(targets - {m}, loss, packets - {Packet(m, loss)});
    }
  }

  lemma SubsetCount<T>(a: set<T>, b: set<T>)
    requires a <= b
    ensures |a| <= |b|
  {
    assert b == a + (b - a);
  }

  lemma SentCount(links: Topology, n: string, loss: Loss)
    requires Closed(links) && n in links
    ensures |Sent(links, n, loss)| <= |links.Keys|
  {
    var targets := set m | m in links[n] && m != loss.peer;
    PacketsCount(targets, loss, Sent(links, n, loss));
    SubsetCount(targets, links.Keys);
  }

  lemma Times(a: nat, b: nat, n: nat)
    requires a < b
    ensures a * n + n <= b * n
  {
    assert (a + 1) * n <= b * n;
  }

  lemma NothingUnmarked(mesh: Mesh, links: Topology, start: int, losses: set<Loss>, d: Delivery)
    requires Covers(mesh, links) && d.packet.to in links && InWindow(start, d.now)
    ensures Unmarked(Deliver(mesh, links, d), links, start, losses) <= Unmarked(mesh, links, start, losses)
  {
    var taken := mesh.(flight := mesh.flight - multiset{d.packet});
    var before, after := Unmarked(mesh, links, start, losses), Unmarked(Deliver(mesh, links, d), links, start, losses);
    forall p | p in after ensures p in before {
      if Marked(mesh, start, p.0, p.1) {
        MarksStay(taken, links, start, d.packet.to, d.packet.loss, d.now, p.0, p.1);
      }
    }
  }

  /** Each delivery uses up fuel. */
  lemma DeliveryUsesFuel(mesh: Mesh, links: Topology, start: int, losses: set<Loss>, d: Delivery)
    requires Covers(mesh, links) && Closed(links) && Within(mesh, links, losses)
    requires d.packet in mesh.flight && d.packet.to in links && InWindow(start, d.now)
    ensures var mesh' := Deliver(mesh, links, d);
            Within(mesh', links, losses) && Fuel(mesh', links, start, losses) < Fuel(mesh, links, start, losses)
  {
    var t, loss := d.packet.to, Normal(d.packet.loss);
    var mesh' := Deliver(mesh, links, d);
    var before, after := Unmarked(mesh, links, start, losses), Unmarked(mesh', links, start, losses);
    NothingUnmarked(mesh, links, start, losses, d);
    SubsetCount(after, before);
    if loss.peer != "" && !IsRepeat(mesh.seen[t], loss, d.now) {
      NotedMarks(mesh.seen[t], loss, loss, start, d.now);
      assert (t, loss) in before && (t, loss) !in after;
      SubsetCount(after, before - {(t, loss)});
      SentCount(links, t, loss);
      Times(|after|, |before|, |links.Keys|);
    } else {
      LessFuel(|after|, |before|, |links.Keys|);
    }
  }

  lemma LessFuel(a: nat, b: nat, n: nat)
    requires a <= b
    ensures a * n <= b * n
  {
  }

  /** No run is longer than its fuel: the flood ends. */
  lemma {:induction false} FloodEnds(mesh: Mesh, links: Topology, start: int, losses: set<Loss>, ds: seq<Delivery>)
    requires Covers(mesh, links) && Closed(links) && Within(mesh, links, losses) && Runs(mesh, links, start, ds)
    ensures |ds| <= Fuel(mesh, links, start, losses)
    decreases |ds|
  {
    if ds != [] {
      DeliveryUsesFuel(mesh, links, start, losses, ds[0]);
      FloodEnds(Deliver(mesh, links, ds[0]), links, start, losses, ds[1..]);
    }
  }

  // ----- repeats, and who stays -----

  /** A node that hears of a loss again within five seconds does nothing; from then on it is news, and whoever has
      come back from that server by then goes again. */
  lemma RepeatsLastFiveSeconds(mesh: Mesh, links: Topology, n: string, loss: Loss, first: int, w: WorldState,
                               again: int)
    requires Covers(mesh, links) && n in links && loss.peer != "" && first <= again
    requires !IsRepeat(mesh.seen[n], Normal(loss), first)
    ensures var heard := Hear(mesh, links, n, loss, first);
            var back := heard.(worlds := heard.worlds[n := w]);
            var end := Hear(back, links, n, loss, again);
            && end.worlds[n] == (if again < first + 5_000_000_000 then w else RemoveHomed(w, loss.peer))
            && end.flight == back.flight + (if again < first + 5_000_000_000 then multiset{}
                                            else multiset(Sent(links, n, Normal(loss))))
  {
  }

  /** Entries that have expired go whenever a node hears of a loss, and a missing reason is "Net split". */
  lemma ExpiredEntriesGo(mesh: Mesh, links: Topology, n: string, loss: Loss, now: int)
    requires Covers(mesh, links) && n in links && loss.peer != ""
    ensures var end := Hear(mesh, links, n, loss, now);
            && (forall k :: k in end.seen[n] ==> now <= end.seen[n][k])
            && (forall k :: k in mesh.seen[n] && now <= mesh.seen[n][k] ==> k in end.seen[n])
            && (loss.reason == "" ==> end == Hear(mesh, links, n, Loss(loss.peer, "Net split"), now))
  {
  }

  lemma HomedOnly(w: WorldState, server: string, id: UserID)
    requires w.UsersValid() && id in w.users && w.users[id].homeServer != server
    ensures var w' := RemoveHomed(w, server);
            w'.UsersValid() && StillThere(w, w', id) && w'.chans == w.chans
  {
    var w' := RemoveHomed(w, server);
    assert w'.Key(w.users[id].nick) in w'.nicks;
  }

  lemma DeliveryStays(mesh: Mesh, links: Topology, d: Delivery, n: string, id: UserID)
    requires Covers(mesh, links) && d.packet.to in links && n in links
    requires mesh.worlds[n].UsersValid() && id in mesh.worlds[n].users
    requires d.packet.loss.peer != mesh.worlds[n].users[id].homeServer
    ensures var mid := Deliver(mesh, links, d);
            Covers(mid, links) && mid.worlds[n].UsersValid() && StillThere(mesh.worlds[n], mid.worlds[n], id)
  {
    HomedOnly(mesh.worlds[n], d.packet.loss.peer, id);
    ThereAlready(mesh.worlds[n], id);
  }

  /** A user whose server is none of those that are lost stays on every node, under its nick. */
  lemma {:induction false} OthersStay(mesh: Mesh, links: Topology, start: int, ds: seq<Delivery>, n: string, id: UserID)
    requires Covers(mesh, links) && Runs(mesh, links, start, ds) && n in links
    requires mesh.worlds[n].UsersValid() && id in mesh.worlds[n].users
    requires forall d :: d in ds ==> d.packet.loss.peer != mesh.worlds[n].users[id].homeServer
    ensures var w, end := mesh.worlds[n], After(mesh, links, start, ds);
            && n in end.worlds && StillThere(w, end.worlds[n], id)
    decreases |ds|
  {
    hide WorldState.UsersValid, StillThere, Deliver;
    var w := mesh.worlds[n];
    ThereAlready(w, id);
    if ds != [] {
      assert ds[0] in ds && forall d :: d in ds[1..] ==> d in ds;
      var mid := Deliver(mesh, links, ds[0]);
      DeliveryStays(mesh, links, ds[0], n, id);
      StillThereGives(w, mid.worlds[n], id);
      OthersStay(mid, links, start, ds[1..], n, id);
      StillThereThen(w, mid.worlds[n], After(mid, links, start, ds[1..]).worlds[n], id);
    }
  }

  ghost predicate StillThere(w: WorldState, w': WorldState, id: UserID) {
    id in w.users && id in w'.users && w'.users[id] == w.users[id]
      && w'.FindByNick(w.users[id].nick) == Some(w.users[id])
  }

  lemma ThereAlready(w: WorldState, id: UserID)
    requires w.UsersValid() && id in w.users
    ensures StillThere(w, w, id)
  {
    assert w.nicks[w.Key(w.users[id].nick)] == id;
  }

  lemma StillThereGives(w: WorldState, w': WorldState, id: UserID)
    requires StillThere(w, w', id)
    ensures id in w'.users && w'.users[id] == w.users[id]
  {
  }

  lemma StillThereThen(w: WorldState, mid: WorldState, w': WorldState, id: UserID)
    requires StillThere(w, mid, id) && StillThere(mid, w', id)
    ensures StillThere(w, w', id)
  {
  }
}
