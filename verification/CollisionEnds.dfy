/** The exchange of a nick collision comes to rest: no run does more than a fixed number of things, and
    one that is not at rest can always go on. */
module CollisionEnds {
  import opened Prelude
  import opened Numbers
  import opened Message
  import opened State
  import opened FedSpec
  import opened Collision
  import opened BurstUsers
  import opened CollisionTheorem
  import opened CollisionTie

  /** A nick announcement may cause one more message, a KILL; other messages cause none. */
  function Weight(m: Message): nat {
    if VerbOf(m.command) == NickVerb then 2 else 1
  }

  function WeightAll(msgs: seq<Message>): nat {
    if msgs == [] then 0 else Weight(msgs[0]) + WeightAll(msgs[1..])
  }

  /** The messages in flight, and for every connection its closing and the QUIT that follows it. */
  function Fuel(net: Net): nat {
    WeightAll(net.toHigh) + WeightAll(net.toLow) + 2 * |net.low.conns| + 2 * |net.high.conns|
  }

  /** The event does something: there is a message to receive, or the connection is to be closed. */
  predicate Effective(net: Net, e: Event) {
    match e
    case HighReceives(_) => net.toHigh != []
    case LowReceives(_) => net.toLow != []
    case HighCloses(id) => id in net.high.closing && id in net.high.conns
    case LowCloses(id) => id in net.low.closing && id in net.low.conns
  }

  ghost predicate AllEffective(net: Net, events: seq<Event>)
    decreases |events|
  {
    events == [] || (Effective(net, events[0]) && AllEffective(Next(net, events[0]), events[1..]))
  }

  lemma {:induction false} WeightConcat(a: seq<Message>, b: seq<Message>)
    ensures WeightAll(a + b) == WeightAll(a) + WeightAll(b)
  {
    if a == [] {
      assert a + b == b;
    } else {
      FirstOfConcat(a, b);
      WeightConcat(a[1..], b);
    }
  }

  lemma WeightOne(m: Message)
    ensures WeightAll([m]) == Weight(m)
  {
    assert [m][1..] == [];
  }

  lemma KillWeighs(local: string, nick: string, reason: string)
    ensures Weight(Kill(local, nick, reason)) == 1
  {
    VerbsOf();
  }

  /** What a message causes weighs less than the message. */
  lemma HandleSendsLess(w: WorldState, local: string, peer: string, m: Message, now: Int64)
    ensures WeightAll(Handle(w, local, peer, m, now).sent) < Weight(m)
  {
    if VerbOf(m.command) == NickVerb && |m.params| >= 7 {
      var u := AnnouncedUser(m.params);
      var equal, lost := "Nick collision (equal TS, both lose)", "Nick collision (TS lost)";
      WeightOne(Kill(local, u.nick, equal));
      WeightOne(Kill(local, u.nick, lost));
      KillWeighs(local, u.nick, equal);
      KillWeighs(local, u.nick, lost);
    }
  }

  lemma QuitWeighs(u: UserState)
    ensures WeightAll([QuitLine(u)]) == 1
  {
    VerbsOf();
    WeightOne(QuitLine(u));
  }

  lemma WeightRest(msgs: seq<Message>)
    requires msgs != []
    ensures WeightAll(msgs) == Weight(msgs[0]) + WeightAll(msgs[1..])
  {
  }

  /** Every effective event uses up fuel. */
  lemma StepUsesFuel(net: Net, e: Event)
    requires Effective(net, e)
    ensures Fuel(Next(net, e)) < Fuel(net)
  {
    match e
    case HighReceives(now) =>
      var r := Handle(net.high.w, net.high.name, net.low.name, net.toHigh[0], now);
      HandleSendsLess(net.high.w, net.high.name, net.low.name, net.toHigh[0], now);
      WeightRest(net.toHigh);
      WeightConcat(net.toLow, r.sent);
    case LowReceives(now) =>
      var r := Handle(net.low.w, net.low.name, net.high.name, net.toLow[0], now);
      HandleSendsLess(net.low.w, net.low.name, net.high.name, net.toLow[0], now);
      WeightRest(net.toLow);
      WeightConcat(net.toHigh, r.sent);
    case HighCloses(id) =>
      QuitWeighs(net.high.conns[id]);
      WeightConcat(net.toLow, [QuitLine(net.high.conns[id])]);
      OneLess(net.high.conns, id);
    case LowCloses(id) =>
      QuitWeighs(net.low.conns[id]);
      WeightConcat(net.toHigh, [QuitLine(net.low.conns[id])]);
      OneLess(net.low.conns, id);
  }

  lemma OneLess(conns: map<UserID, UserState>, id: UserID)
    requires id in conns
    ensures |conns - {id}| == |conns| - 1
  {
    assert (conns - {id}).Keys == conns.Keys - {id};
    assert |(conns - {id}).Keys| == |conns - {id}| && |conns.Keys| == |conns|;
  }

  /** No run has more effective events than the fuel it starts with. */
  lemma {:induction false} ExchangeEnds(net: Net, events: seq<Event>)
    requires AllEffective(net, events)
    ensures |events| <= Fuel(net)
    decreases |events|
  {
    if events != [] {
      StepUsesFuel(net, events[0]);
      ExchangeEnds(Next(net, events[0]), events[1..]);
    }
  }

  /** Only open connections are told to close. */
  ghost predicate ClosingOpen(net: Net) {
    net.low.closing <= net.low.conns.Keys && net.high.closing <= net.high.conns.Keys
  }

  lemma ClosingStaysOpen(net: Net, e: Event)
    requires ClosingOpen(net)
    ensures ClosingOpen(Next(net, e))
  {
  }

  /** A net that is not at rest can do something. */
  lemma SomethingToDo(net: Net) returns (e: Event)
    requires ClosingOpen(net) && !Settled(net)
    ensures Effective(net, e)
  {
    if net.toHigh != [] {
      e := HighReceives(0);
    } else if net.toLow != [] {
      e := LowReceives(0);
    } else if net.high.closing != {} {
      var id :| id in net.high.closing;
      e := HighCloses(id);
    } else {
      var id :| id in net.low.closing;
      e := LowCloses(id);
    }
  }

  /** Every run can be carried on to rest, within its fuel. */
  lemma {:induction false} ComesToRest(net: Net) returns (events: seq<Event>)
    requires ClosingOpen(net)
    ensures AllEffective(net, events) && Settled(Run(net, events)) && |events| <= Fuel(net)
    decreases Fuel(net)
  {
    if Settled(net) {
      events := [];
    } else {
      var e := SomethingToDo(net);
      StepUsesFuel(net, e);
      ClosingStaysOpen(net, e);
      var rest := ComesToRest(Next(net, e));
      events := [e] + rest;
      assert events[1..] == rest;
    }
  }
  lemma {:induction false} RunKeepsOpen(net: Net, events: seq<Event>)
    requires ClosingOpen(net)
    ensures ClosingOpen(Run(net, events))
    decreases |events|
  {
    if events != [] {
      ClosingStaysOpen(net, events[0]);
      RunKeepsOpen(Next(net, events[0]), events[1..]);
    }
  }

  lemma {:induction false} RunOn(net: Net, events: seq<Event>, more: seq<Event>)
    ensures Run(net, events + more) == Run(Run(net, events), more)
    decreases |events|
  {
    if events == [] {
      assert events + more == more;
    } else {
      assert (events + more)[1..] == events[1..] + more;
      RunOn(Next(net, events[0]), events[1..], more);
    }
  }

  /** Whatever has happened since two nodes sent each other their bursts, a bounded number of further events
      brings the net to rest, and every way to rest ends the collision in the same way: the older user has the
      nick on its own node, and the younger one has neither record nor connection. */
  lemma CollisionIsSettled(c: Clash, net: Net, oLow: Order, oHigh: Order, events: seq<Event>) returns (more: seq<Event>)
    requires Starts(c, net, oLow, oHigh)
    ensures Settled(Run(net, events + more)) && |more| <= Fuel(Run(net, events))
    ensures forall rest: seq<Event> :: Settled(Run(net, events + rest)) ==> OlderHasWon(c, Run(net, events + rest))
  {
    RunKeepsOpen(net, events);
    more := ComesToRest(Run(net, events));
    RunOn(net, events, more);
    forall rest: seq<Event> | Settled(Run(net, events + rest)) ensures OlderHasWon(c, Run(net, events + rest)) {
      LowerTimestampWins(c, net, oLow, oHigh, events + rest);
    }
  }

  /** The same for users of equal age: the exchange can always be carried on to rest, and wherever it comes to
      rest, both have lost. */
  lemma TieIsSettled(c: Clash, net: Net, oLow: Order, oHigh: Order, events: seq<Event>) returns (more: seq<Event>)
    requires StartsTied(c, net, oLow, oHigh)
    ensures Settled(Run(net, events + more)) && |more| <= Fuel(Run(net, events))
    ensures forall rest: seq<Event> :: Settled(Run(net, events + rest)) ==>
              HasLost(c.low, Run(net, events + rest).low) && HasLost(c.high, Run(net, events + rest).high)
  {
    RunKeepsOpen(net, events);
    more := ComesToRest(Run(net, events));
    RunOn(net, events, more);
    forall rest: seq<Event> | Settled(Run(net, events + rest))
      ensures HasLost(c.low, Run(net, events + rest).low) && HasLost(c.high, Run(net, events + rest).high)
    {
      BothLose(c, net, oLow, oHigh, events + rest);
    }
  }
}
