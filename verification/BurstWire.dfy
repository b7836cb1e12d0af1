/** A burst on the wire. The writer of a link closes it at the first message that does not encode, so a
    burst arrives only if every line of it does. */
module BurstWire {
  import opened Prelude
  import opened Numbers
  import opened Message
  import opened State
  import opened ModeSpec
  import opened FedSpec
  import opened WireSpec
  import opened WireRoundTrip
  import opened BurstShape
  import opened BurstUsers
  import opened BurstReplay
  import opened BurstTheorem

  predicate Encodes(m: Message) {
    m.tags == map[] && EncodeIn(m, []).Ok?
  }

  // ----- when a line encodes -----

  /** The bytes of the parameters, each with the space before it. */
  function Size(params: seq<string>): nat {
    if params == [] then 0 else 1 + |params[0]| + Size(params[1..])
  }

  lemma {:induction false} ParamTextSize(params: seq<string>)
    requires params != []
    ensures |ParamText(params)| == Size(params)
  {
    if |params| > 1 {
      ParamTextSize(params[1..]);
    } else {
      assert params[1..] == [];
    }
  }

  predicate Fits(params: seq<string>)
    requires params != []
  {
    if |params| == 1 then TrailingOk(params[0]) else MiddleOk(params[0]) && Fits(params[1..])
  }

  lemma {:induction false} FitsIsParamsOk(params: seq<string>)
    requires params != []
    ensures Fits(params) <==> ParamsOk(params)
  {
    if |params| > 1 {
      var rest := params[1..];
      FitsIsParamsOk(rest);
      if ParamsOk(params) {
        assert forall i :: 0 <= i < |rest| ==> rest[i] == params[i + 1];
      } else if MiddleOk(params[0]) {
        var i :| 0 <= i < |params| && !(if i == |params| - 1 then TrailingOk(params[i]) else MiddleOk(params[i]));
        assert rest[i - 1] == params[i];
      }
    }
  }

  /** A line of at most 510 bytes and its terminator, with a prefix. */
  lemma EncodesExactly(prefix: string, command: string, params: seq<string>)
    requires prefix != "" && ValidCommand(command) && 0 < |params| <= MAX_PARAMS
    ensures Encodes(Plain(prefix, command, params)) <==>
              Fits(params) && |prefix| + |command| + Size(params) <= 507
  {
    var m := Plain(prefix, command, params);
    FitsIsParamsOk(params);
    ParamTextSize(params);
    assert |CommandText(m)| == |command| + 1 + Size(params);
    assert |PrefixText(m)| == |prefix| + 2 + |CommandText(m)|;
    assert |Text(m, []) + "\r\n"| == |PrefixText(m)| + 2;
  }

  // ----- when the burst of a world encodes -----

  predicate Unspaced(s: string) {
    ' ' !in s && TrailingOk(s)
  }

  predicate UserFits(u: UserState, server: string) {
    if u.service then
      && MiddleOk(u.nick) && (u.serviceDistribution == "" || MiddleOk(u.serviceDistribution)) && MiddleOk(u.serviceType)
      && TrailingOk(u.realname)
      && |server| + |u.nick| + (if u.serviceDistribution == "" then 1 else |u.serviceDistribution|) + |u.serviceType|
         + |u.realname| <= 492
    else
      && MiddleOk(u.nick) && MiddleOk(u.user) && MiddleOk(u.host) && MiddleOk(server) && Unspaced(u.modes)
      && TrailingOk(u.realname)
      && 2 * |server| + |u.nick| + |u.user| + |u.host| + |u.modes| + |FormatInt(u.ts)| + |u.realname| <= 493
  }

  predicate JoinFits(ch: ChanState, u: UserState) {
    |u.Hostmask()| + |ch.name| + |FormatInt(ch.createdAt)| <= 501
  }

  predicate TopicFits(server: string, ch: ChanState) {
    TrailingOk(ch.topic.text) && |server| + |ch.name| + |ch.topic.text| <= 500
  }

  /** A key in front of a limit is not the last parameter. */
  predicate WordFits(server: string, ch: ChanState) {
    && (if ch.key != "" && ch.limit > 0 then MiddleOk(ch.key) else TrailingOk(ch.key))
    && |server| + |ch.name| + |ModeWord(ch)| + (if ch.key == "" then 0 else 1 + |ch.key|)
       + (if ch.limit > 0 then 1 + |FormatInt(ch.limit)| else 0) <= 501
  }

  /** The argument of a +b, +o or +v line. */
  predicate ArgumentFits(server: string, ch: ChanState, arg: string) {
    TrailingOk(arg) && |server| + |ch.name| + |arg| <= 498
  }

  /** A channel with a local member. */
  ghost predicate ChanFits(w: WorldState, server: string, ch: ChanState) {
    && MiddleOk(ch.name) && (ch.topic.text != "" ==> TopicFits(server, ch)) && WordFits(server, ch)
    && (forall id :: id in ch.members && IsLocal(w, id) ==>
          && JoinFits(ch, w.users[id])
          && (ch.members[id].IsOp() || ch.members[id].IsVoice() ==> ArgumentFits(server, ch, w.users[id].nick)))
    && (forall mask :: mask in ch.lists.bans ==> ArgumentFits(server, ch, mask))
  }

  /** What can be sent: names and other words without spaces, no control characters, and nothing too long for
      a line. */
  ghost predicate WorldFits(w: WorldState, server: string) {
    && (forall id :: IsLocal(w, id) ==> UserFits(w.users[id], server))
    && (forall c :: c in w.chans && HasLocal(w, w.chans[c]) ==> ChanFits(w, server, w.chans[c]))
  }

  // ----- one kind of lines at a time -----

  lemma {:induction false} NatIsWord(n: nat)
    ensures MiddleOk(FormatNat(n))
  {
    var s := FormatNat(n);
    assert forall i :: 0 <= i < |s| ==> IsDigit(s[i]);
  }

  lemma IntIsWord(n: int)
    ensures MiddleOk(FormatInt(n))
  {
    NatIsWord(if n < 0 then -n else n);
  }

  lemma WordIsWord(ch: ChanState)
    ensures MiddleOk(ModeWord(ch))
  {
    LettersAreWord(ch.modes);
    var l, p := Letters(ch.modes), (if ch.key != "" then "k" else "") + (if ch.limit > 0 then "l" else "");
    assert Unspaced(l + p);
  }

  lemma UnspacedBoth(x: string, y: string)
    requires Unspaced(x) && Unspaced(y)
    ensures Unspaced(x + y)
  {
  }

  /** One more letter in front of a mode word. */
  lemma LetterWord(on: bool, c: string, rest: string)
    requires Unspaced(c) && Unspaced(rest)
    ensures Unspaced(Letter(on, c) + rest)
  {
    UnspacedBoth(Letter(on, c), rest);
  }

  lemma LettersAreWord(m: Modes)
    ensures Unspaced(Letters(m))
  {
    var r := Letter(m.serverReop, "r");
    var ar := Letter(m.anonymous, "a") + r;
    var sar := Letter(m.secret, "s") + ar;
    var psar := Letter(m.private, "p") + sar;
    var ipsar := Letter(m.inviteOnly, "i") + psar;
    var mipsar := Letter(m.moderated, "m") + ipsar;
    var tmipsar := Letter(m.topicLocked, "t") + mipsar;
    LetterWord(m.anonymous, "a", r);
    LetterWord(m.secret, "s", ar);
    LetterWord(m.private, "p", sar);
    LetterWord(m.inviteOnly, "i", psar);
    LetterWord(m.moderated, "m", ipsar);
    LetterWord(m.topicLocked, "t", mipsar);
    LetterWord(m.noExternal, "n", tmipsar);
  }

  lemma Commands()
    ensures ValidCommand("NICK") && ValidCommand("SERVICE") && ValidCommand("JOIN") && ValidCommand("TOPIC")
    ensures ValidCommand("MODE")
  {
    assert !IsDigit("NICK"[0]) && !IsDigit("SERVICE"[0]) && !IsDigit("JOIN"[0]);
    assert !IsDigit("TOPIC"[0]) && !IsDigit("MODE"[0]);
  }

  /** The last four parameters of a NICK line. */
  lemma NickTailFits(u: UserState, server: string)
    ensures var tail := [server] + (["+" + u.modes] + ([FormatInt(u.ts)] + [u.realname]));
            && (Fits(tail) <==> MiddleOk(server) && Unspaced(u.modes) && TrailingOk(u.realname))
            && Size(tail) == 5 + |server| + |u.modes| + |FormatInt(u.ts)| + |u.realname|
  {
    IntIsWord(u.ts);
    FitsCons(server, ["+" + u.modes] + ([FormatInt(u.ts)] + [u.realname]));
    FitsCons("+" + u.modes, [FormatInt(u.ts)] + [u.realname]);
    FitsCons(FormatInt(u.ts), [u.realname]);
    PlusIsWord(u.modes);
    OneSize(u.realname);
  }

  lemma NickParamsFit(u: UserState, server: string, params: seq<string>)
    requires params == [u.nick, "1", u.user, u.host, server, "+" + u.modes, FormatInt(u.ts), u.realname]
    ensures Fits(params) <==>
              && MiddleOk(u.nick) && MiddleOk(u.user) && MiddleOk(u.host) && MiddleOk(server) && Unspaced(u.modes)
              && TrailingOk(u.realname)
    ensures Size(params)
         == 10 + |u.nick| + |u.user| + |u.host| + |server| + |u.modes| + |FormatInt(u.ts)| + |u.realname|
  {
    var tail := [server] + (["+" + u.modes] + ([FormatInt(u.ts)] + [u.realname]));
    NickTailFits(u, server);
    assert params == [u.nick] + (["1"] + ([u.user] + ([u.host] + tail)));
    FitsCons(u.nick, ["1"] + ([u.user] + ([u.host] + tail)));
    FitsCons("1", [u.user] + ([u.host] + tail));
    FitsCons(u.user, [u.host] + tail);
    FitsCons(u.host, tail);
  }

  lemma OneSize(p: string)
    ensures Size([p]) == 1 + |p|
  {
    assert [p][1..] == [];
  }

  lemma NickLineFits(u: UserState, server: string)
    requires !u.service && server != ""
    ensures Encodes(UserLine(u, server)) <==> UserFits(u, server)
  {
    var params := UserLine(u, server).params;
    Commands();
    NickParamsFit(u, server, params);
    EncodesExactly(server, "NICK", params);
  }

  lemma PlusIsWord(s: string)
    ensures MiddleOk("+" + s) <==> Unspaced(s)
  {
    var t := "+" + s;
    assert forall i :: 0 <= i < |s| ==> t[i + 1] == s[i];
  }

  lemma FitsCons(p: string, rest: seq<string>)
    requires rest != []
    ensures Fits([p] + rest) <==> MiddleOk(p) && Fits(rest)
    ensures Size([p] + rest) == 1 + |p| + Size(rest)
  {
    assert ([p] + rest)[1..] == rest;
  }

  lemma ServiceParamsFit(u: UserState, distribution: string, params: seq<string>)
    requires params == [u.nick, "1", distribution, u.serviceType, "1", u.realname]
    ensures Fits(params) <==>
              MiddleOk(u.nick) && MiddleOk(distribution) && MiddleOk(u.serviceType) && TrailingOk(u.realname)
    ensures Size(params) == 8 + |u.nick| + |distribution| + |u.serviceType| + |u.realname|
  {
    var realname := [u.realname];
    var hops := ["1"] + realname;
    var kind := [u.serviceType] + hops;
    var where := [distribution] + kind;
    var token := ["1"] + where;
    assert params == [u.nick] + token;
    FitsCons(u.nick, token);
    FitsCons("1", where);
    FitsCons(distribution, kind);
    FitsCons(u.serviceType, hops);
    FitsCons("1", realname);
    OneSize(u.realname);
  }

  lemma ServiceLineFits(u: UserState, server: string)
    requires u.service && server != ""
    ensures Encodes(UserLine(u, server)) <==> UserFits(u, server)
  {
    var params := UserLine(u, server).params;
    Commands();
    ServiceParamsFit(u, params[2], params);
    EncodesExactly(server, "SERVICE", params);
  }

  lemma JoinLineFits(ch: ChanState, u: UserState)
    ensures Encodes(JoinLine(ch, u)) <==> MiddleOk(ch.name) && JoinFits(ch, u)
  {
    var params := [ch.name] + [FormatInt(ch.createdAt)];
    IntIsWord(ch.createdAt);
    Commands();
    EncodesExactly(u.Hostmask(), "JOIN", params);
    FitsCons(ch.name, [FormatInt(ch.createdAt)]);
    OneSize(FormatInt(ch.createdAt));
    assert JoinLine(ch, u).params == params;
  }

  lemma TopicLineFits(server: string, ch: ChanState)
    requires server != ""
    ensures Encodes(Plain(server, "TOPIC", [ch.name, ch.topic.text])) <==> MiddleOk(ch.name) && TopicFits(server, ch)
  {
    var params := [ch.name] + [ch.topic.text];
    Commands();
    EncodesExactly(server, "TOPIC", params);
    FitsCons(ch.name, [ch.topic.text]);
    OneSize(ch.topic.text);
    assert params == [ch.name, ch.topic.text];
  }

  lemma ModeLineFits(server: string, name: string, word: string, args: seq<string>)
    requires server != "" && MiddleOk(word) && |args| <= 2
    ensures Encodes(ModeLine(server, name, word, args)) <==>
              && MiddleOk(name) && (args != [] ==> Fits(args))
              && |server| + |name| + |word| + Size(args) <= 501
  {
    var rest := [word] + args;
    Commands();
    EncodesExactly(server, "MODE", [name] + rest);
    FitsCons(name, rest);
    assert [name, word] + args == [name] + rest;
    if args == [] {
      assert rest == [word];
    } else {
      FitsCons(word, args);
    }
  }

  lemma ArgumentLineFits(server: string, ch: ChanState, word: string, arg: string)
    requires server != "" && word in {"+b", "+o", "+v"}
    ensures Encodes(ModeLine(server, ch.name, word, [arg])) <==> MiddleOk(ch.name) && ArgumentFits(server, ch, arg)
  {
    ModeLineFits(server, ch.name, word, [arg]);
    OneSize(arg);
  }

  lemma WordLineFits(server: string, ch: ChanState)
    requires server != ""
    ensures Encodes(WordLine(server, ch)) <==> MiddleOk(ch.name) && WordFits(server, ch)
  {
    WordIsWord(ch);
    IntIsWord(ch.limit);
    ModeLineFits(server, ch.name, ModeWord(ch), ModeParams(ch));
    var limit := [FormatInt(ch.limit)];
    OneSize(FormatInt(ch.limit));
    OneSize(ch.key);
    FitsCons(ch.key, limit);
    assert ModeParams(ch) == (if ch.key == "" then [] else [ch.key]) + (if ch.limit > 0 then limit else []);
  }

  // ----- the whole burst -----

  lemma UsersFit(w: WorldState, server: string)
    requires server != ""
    ensures Users(w, server, w.users.Keys, Encodes) <==> forall id :: IsLocal(w, id) ==> UserFits(w.users[id], server)
  {
    forall id | IsLocal(w, id) ensures Encodes(UserLine(w.users[id], server)) <==> UserFits(w.users[id], server) {
      if w.users[id].service {
        ServiceLineFits(w.users[id], server);
      } else {
        NickLineFits(w.users[id], server);
      }
    }
  }

  lemma JoinsFit(w: WorldState, ch: ChanState)
    ensures Joins(w, ch, ch.members.Keys, Encodes) <==>
              forall id :: id in ch.members && IsLocal(w, id) ==> MiddleOk(ch.name) && JoinFits(ch, w.users[id])
  {
    forall id | IsLocal(w, id)
      ensures Encodes(JoinLine(ch, w.users[id])) <==> MiddleOk(ch.name) && JoinFits(ch, w.users[id])
    {
      JoinLineFits(ch, w.users[id]);
    }
  }

  lemma BansFit(server: string, ch: ChanState)
    requires server != ""
    ensures Bans(server, ch.name, ch.lists.bans.Keys, Encodes) <==>
              forall mask :: mask in ch.lists.bans ==> MiddleOk(ch.name) && ArgumentFits(server, ch, mask)
  {
    forall mask
      ensures Encodes(ModeLine(server, ch.name, "+b", [mask])) <==> MiddleOk(ch.name) && ArgumentFits(server, ch, mask)
    {
      ArgumentLineFits(server, ch, "+b", mask);
    }
  }

  lemma FlagsFit(w: WorldState, server: string, ch: ChanState)
    requires server != "" && MiddleOk(ch.name)
    ensures Flags(w, server, ch, ch.members.Keys, Encodes) <==>
              forall id :: id in ch.members && IsLocal(w, id) && (ch.members[id].IsOp() || ch.members[id].IsVoice()) ==>
                ArgumentFits(server, ch, w.users[id].nick)
  {
    forall nick ensures Encodes(ModeLine(server, ch.name, "+o", [nick])) <==> ArgumentFits(server, ch, nick) {
      ArgumentLineFits(server, ch, "+o", nick);
    }
    forall nick ensures Encodes(ModeLine(server, ch.name, "+v", [nick])) <==> ArgumentFits(server, ch, nick) {
      ArgumentLineFits(server, ch, "+v", nick);
    }
  }

  lemma ChannelFits(w: WorldState, server: string, ch: ChanState)
    requires server != "" && HasLocal(w, ch)
    ensures ChanEvery(w, server, ch, Encodes) <==> ChanFits(w, server, ch)
  {
    hide Encodes, JoinFits, TopicFits, WordFits, ArgumentFits, MiddleOk;
    WordLineFits(server, ch);
    if MiddleOk(ch.name) {
      JoinsFit(w, ch);
      TopicLineFits(server, ch);
      BansFit(server, ch);
      FlagsFit(w, server, ch);
    }
  }

  /** Every line of a burst encodes if and only if the world fits. */
  lemma BurstEncodesExactly(w: WorldState, server: string, o: Order)
    requires Orders(o, w) && server != ""
    ensures All(BurstLines(w, server, o), Encodes) <==> WorldFits(w, server)
  {
    BurstLinesAre(w, server, o, Encodes);
    UsersFit(w, server);
    forall c | c in w.chans && HasLocal(w, w.chans[c])
      ensures ChanEvery(w, server, w.chans[c], Encodes) <==> ChanFits(w, server, w.chans[c])
    {
      ChannelFits(w, server, w.chans[c]);
    }
  }

  // ----- the stream -----

  /** The bytes a link has written, and whether it is closed. */
  datatype Written = Written(stream: string, closed: bool)

  /** The writer goes on to the first message that does not encode, and then closes the link. */
  function Write(msgs: seq<Message>): Written {
    if msgs == [] then Written("", false)
    else if !Encodes(msgs[0]) then Written("", true)
    else
      var rest := Write(msgs[1..]);
      Written(EncodeIn(msgs[0], []).value + rest.stream, rest.closed)
  }

  /** The reader takes the stream line by line and skips what does not parse. */
  function Read(stream: string): seq<Message>
    decreases |stream|
  {
    var i := IndexOf(stream, '\n');
    if i == |stream| then []
    else
      var m := ParseLine(stream[..i + 1]);
      (if m.Ok? then [m.value] else []) + Read(stream[i + 1..])
  }

  predicate CleanPrefix(prefix: string) {
    ' ' !in prefix && '\n' !in prefix
  }

  /** An upper-case command and a prefix of one word. */
  predicate Sound(m: Message) {
    m.tags == map[] && Upper(m.command) == m.command && CleanPrefix(m.prefix)
  }

  lemma {:induction false} ParamTextOneLine(params: seq<string>)
    requires params != [] && Fits(params)
    ensures '\n' !in ParamText(params)
    decreases |params|
  {
    if |params| > 1 {
      ParamTextOneLine(params[1..]);
    }
  }

  lemma TextIsOneLine(m: Message)
    requires Sound(m) && Encodes(m)
    ensures '\n' !in Text(m, [])
  {
    assert '\n' !in m.command by {
      if IsAllDigits(m.command) {
        assert forall i :: 0 <= i < |m.command| ==> IsDigit(m.command[i]);
      }
    }
    if m.params != [] {
      FitsIsParamsOk(m.params);
      ParamTextOneLine(m.params);
    }
    assert '\n' !in CommandText(m);
  }

  lemma FirstLine(m: Message, rest: string)
    requires Sound(m) && Encodes(m)
    ensures Read(EncodeIn(m, []).value + rest) == [m] + Read(rest)
  {
    var text := Text(m, []) + "\r";
    var stream := EncodeIn(m, []).value + rest;
    TextIsOneLine(m);
    assert stream == text + ['\n'] + rest;
    IndexOfSplit(text, '\n', rest);
    assert stream[..|text| + 1] == EncodeIn(m, []).value && stream[|text| + 1..] == rest;
    RoundTrip(m, []);
  }

  lemma NothingToRead()
    ensures Read("") == []
  {
  }

  /** Messages that encode come out of the stream as they went in. */
  lemma {:induction false} ReadsBack(msgs: seq<Message>)
    requires All(msgs, Encodes) && All(msgs, Sound)
    ensures Read(Write(msgs).stream) == msgs
  {
    hide Encodes, Sound, Read, All;
    if msgs == [] {
      NothingToRead();
    } else {
      AllCons(msgs, Encodes);
      AllCons(msgs, Sound);
      ReadsBack(msgs[1..]);
      FirstLine(msgs[0], Write(msgs[1..]).stream);
    }
  }

  lemma {:induction false} ClosedExactly(msgs: seq<Message>)
    ensures Write(msgs).closed <==> !All(msgs, Encodes)
  {
    if msgs != [] {
      ClosedExactly(msgs[1..]);
      AllCons(msgs, Encodes);
    }
  }

  // ----- the burst on the wire -----

  /** Services are announced without user and host name, so these are not covered by what fits. */
  ghost predicate CleanNames(w: WorldState, server: string) {
    CleanPrefix(server) && forall id :: IsLocal(w, id) && w.users[id].service ==> CleanPrefix(w.users[id].Hostmask())
  }

  lemma CleanHostmask(u: UserState)
    requires MiddleOk(u.nick) && MiddleOk(u.user) && MiddleOk(u.host)
    ensures CleanPrefix(u.Hostmask())
  {
  }

  lemma UpperCommands()
    ensures Upper("NICK") == "NICK" && Upper("SERVICE") == "SERVICE" && Upper("JOIN") == "JOIN"
    ensures Upper("TOPIC") == "TOPIC" && Upper("MODE") == "MODE"
  {
  }

  lemma UsersSound(w: WorldState, server: string)
    requires CleanPrefix(server)
    ensures Users(w, server, w.users.Keys, Sound)
  {
    UpperCommands();
  }

  lemma ChanIsSound(w: WorldState, server: string, ch: ChanState)
    requires CleanPrefix(server) && forall id :: IsLocal(w, id) ==> CleanPrefix(w.users[id].Hostmask())
    ensures ChanEvery(w, server, ch, Sound)
  {
    UpperCommands();
  }

  lemma BurstIsSound(w: WorldState, server: string, o: Order)
    requires Orders(o, w) && WorldFits(w, server) && CleanNames(w, server)
    ensures All(BurstLines(w, server, o), Sound)
  {
    forall id | IsLocal(w, id) ensures CleanPrefix(w.users[id].Hostmask()) {
      if !w.users[id].service {
        CleanHostmask(w.users[id]);
      }
    }
    UsersSound(w, server);
    forall c | c in w.chans ensures ChanEvery(w, server, w.chans[c], Sound) {
      ChanIsSound(w, server, w.chans[c]);
    }
    BurstLinesAre(w, server, o, Sound);
  }

  /** The link survives a burst if and only if the world fits. */
  lemma LinkSurvivesBurst(a: WorldState, server: string, o: Order)
    requires Orders(o, a) && server != ""
    ensures !Write(BurstLines(a, server, o)).closed <==> WorldFits(a, server)
  {
    ClosedExactly(BurstLines(a, server, o));
    BurstEncodesExactly(a, server, o);
  }

  /** BurstIsFaithful over the bytes of the link: a world that fits is written in full, and what the peer
      reads from the stream makes it a faithful copy. */
  lemma BurstArrives(a: WorldState, server: string, o: Order, w: WorldState, local: string, peer: string,
                     clock: nat -> Int64)
    returns (after: WorldState, cid: map<UserID, UserID>)
    requires Sendable(a) && Orders(o, a) && ServerName(server) && WorldFits(a, server) && CleanNames(a, server)
    requires w.Valid() && NoClash(a, w)
    requires forall c :: c in a.chans ==> Later(clock, a.chans[c].createdAt)
    ensures !Write(BurstLines(a, server, o)).closed
    ensures after == Replay(w, local, peer, Read(Write(BurstLines(a, server, o)).stream), clock)
    ensures Received(a, server, w, after, cid)
    ensures Unanswered(w, local, peer, Read(Write(BurstLines(a, server, o)).stream), clock)
  {
    LinkSurvivesBurst(a, server, o);
    BurstEncodesExactly(a, server, o);
    BurstIsSound(a, server, o);
    ReadsBack(BurstLines(a, server, o));
    after, cid := BurstIsFaithful(a, server, o, w, local, peer, clock);
  }

  /** "+lk 5" with the trailing key "a b" gives a channel that cannot be sent: the key is a middle parameter
      of its mode line. */
  lemma SpacedKeyCutsTheLink(w: WorldState, server: string, now: Int64)
    requires server != ""
    ensures var ch := LocalRun(w, NewChan("#x", now), '+', "lk", ["5", "a b"], now).ch;
            ch.key == "a b" && ch.limit == 5 && !WordFits(server, ch) && !Encodes(WordLine(server, ch))
  {
    var ch := NewChan("#x", now);
    var ch1, ch2 := ch.(limit := 5), ch.(limit := 5, key := "a b");
    assert NatOf("5") == 5 by {
      assert "5"[..0] == "";
    }
    assert ParseInt("5") == Some(5);
    assert LocalEffect(w, ch, true, KindOf('l'), ["5", "a b"], now) == Done(ch1, 1, ["5"]);
    assert LocalEffect(w, ch1, true, KindOf('k'), ["a b"], now) == Done(ch2, 1, ["a b"]);
    assert "lk"[1..] == "k" && "k"[1..] == "" && ["5", "a b"][1..] == ["a b"] && ["a b"][1..] == [];
    assert LocalRun(w, ch1, '+', "k", ["a b"], now) == Outcome(ch2, "+k", ["a b"], "");
    assert "a b"[1] == ' ';
    WordLineFits(server, ch2);
  }
}
