/** The lines of one channel leave every other channel alone, and one that is there stays. */
module BurstFrame {
  import opened Prelude
  import opened Numbers
  import opened Message
  import opened State
  import opened ModeSpec
  import opened FedSpec
  import opened BurstShape
  import opened BurstUsers
  import opened BurstChannels

  /** A JOIN, TOPIC or MODE line for the channel called `name`. */
  predicate Concerns(m: Message, name: string) {
    VerbOf(m.command) in {JoinVerb, TopicVerb, ModeVerb} && m.params != [] && m.params[0] == name
  }

  /** Only the channel filed under `c` may have changed. It is still there under its name. */
  ghost predicate OnlyChan(w: WorldState, after: WorldState, c: string) {
    && after == w.(chans := after.chans) && after.chans.Keys == w.chans.Keys && c in w.chans
    && after.chans[c].name == w.chans[c].name
    && forall x :: x in w.chans && x != c ==> after.chans[x] == w.chans[x]
  }

  ghost predicate ChangesOne(step: Stepper) {
    forall w: WorldState, m: Message, name: string, k: nat
      {:trigger Concerns(m, name), step(w, m, k)} ::
      Concerns(m, name) && w.FindChannel(name).Some? ==> OnlyChan(w, step(w, m, k), w.Key(name))
  }

  lemma JoinChangesOne(w: WorldState, m: Message, name: string, now: Int64)
    requires m.params != [] && m.params[0] == name && w.FindChannel(name).Some?
    ensures OnlyChan(w, RemoteJoin(w, m, now), w.Key(name))
  {
  }

  lemma TopicChangesOne(w: WorldState, m: Message, name: string, now: Int64)
    requires m.params != [] && m.params[0] == name && w.FindChannel(name).Some?
    ensures OnlyChan(w, RemoteTopic(w, m, now), w.Key(name))
  {
  }

  lemma ModeChangesOne(w: WorldState, m: Message, name: string, now: Int64)
    requires m.params != [] && m.params[0] == name && w.FindChannel(name).Some?
    ensures OnlyChan(w, RemoteMode(w, m, now), w.Key(name))
  {
    if |m.params| >= 2 {
      RemoteRunFrame(w, w.FindChannel(name).value, '+', m.params[1], m.params[2..], now);
    }
  }

  lemma StepChangesOne(local: string, peer: string, clock: nat -> Int64)
    ensures ChangesOne(Step(local, peer, clock))
  {
    hide OnlyChan;
    forall w: WorldState, m: Message, name: string, k: nat | Concerns(m, name) && w.FindChannel(name).Some?
      ensures OnlyChan(w, Step(local, peer, clock)(w, m, k), w.Key(name))
    {
      JoinChangesOne(w, m, name, clock(k));
      TopicChangesOne(w, m, name, clock(k));
      ModeChangesOne(w, m, name, clock(k));
    }
  }

  lemma OnlyChanThen(w: WorldState, mid: WorldState, after: WorldState, c: string)
    requires OnlyChan(w, mid, c) && OnlyChan(mid, after, c)
    ensures OnlyChan(w, after, c)
  {
  }

  lemma {:induction false} RunChangesOne(step: Stepper, w: WorldState, msgs: seq<Message>, name: string, k: nat)
    requires ChangesOne(step) && w.FindChannel(name).Some? && forall m :: m in msgs ==> Concerns(m, name)
    ensures OnlyChan(w, RunAll(step, w, msgs, k), w.Key(name))
    decreases |msgs|
  {
    if msgs != [] {
      assert Concerns(msgs[0], name);
      var mid := step(w, msgs[0], k);
      RunChangesOne(step, mid, msgs[1..], name, k + 1);
      OnlyChanThen(w, mid, RunAll(step, w, msgs, k), w.Key(name));
    }
  }

  lemma EveryLineConcerns(a: WorldState, server: string, src: ChanState, p: Message -> bool)
    requires forall m :: p(m) == Concerns(m, src.name)
    ensures ChanEvery(a, server, src, p)
  {
    VerbsOf();
  }

  lemma LinesConcern(a: WorldState, server: string, src: ChanState, o: ChanOrder)
    requires OrdersChan(o, src)
    ensures forall m :: m in ChanLines(a, server, src, o) ==> Concerns(m, src.name)
  {
    hide ChanEvery, Concerns, OrdersChan;
    var p := (m: Message) => Concerns(m, src.name);
    EveryLineConcerns(a, server, src, p);
    ChanLinesAre(a, server, src, o, p);
    forall m | m in ChanLines(a, server, src, o) ensures Concerns(m, src.name) {
      assert p(m);
    }
  }

  lemma FirstHolds(msgs: seq<Message>, p: Message -> bool)
    requires msgs != [] && All(msgs, p)
    ensures p(msgs[0])
  {
    AllCons(msgs, p);
  }

  /** A channel without a local member has no lines. */
  lemma NoLines(a: WorldState, server: string, src: ChanState, o: ChanOrder)
    requires OrdersChan(o, src) && !HasLocal(a, src)
    ensures ChanLines(a, server, src, o) == []
  {
    var p := (m: Message) => false;
    assert ChanEvery(a, server, src, p);
    ChanLinesAre(a, server, src, o, p);
    var lines := ChanLines(a, server, src, o);
    if lines != [] {
      FirstHolds(lines, p);
    }
  }
}
