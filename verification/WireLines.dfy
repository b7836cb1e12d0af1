/** What a line means, however it is written: gaps of any length, the command in any case, and a last parameter
    with or without its colon. */
module WireLines {
  import opened Prelude
  import opened Message
  import opened WireSpec
  import WireRoundTrip

  // ----- lines as they may be written -----

  /** One or more spaces. */
  predicate IsGap(gap: string) {
    gap != "" && forall i :: 0 <= i < |gap| ==> gap[i] == ' '
  }

  predicate IsWord(s: string) {
    s != "" && s[0] != ':' && ' ' !in s
  }

  /** What stands in front of a command: a tag section and a prefix, each with a gap behind it. */
  datatype Lead = Lead(tags: Option<string>, tagGap: string, prefix: Option<string>, prefixGap: string)

  predicate LeadOk(l: Lead) {
    && (l.tags.Some? ==> ' ' !in l.tags.value && IsGap(l.tagGap))
    && (l.prefix.Some? ==> ' ' !in l.prefix.value && IsGap(l.prefixGap))
  }

  function TagPart(l: Lead): string {
    if l.tags.Some? then "@" + l.tags.value + l.tagGap else ""
  }

  function PrefixPart(l: Lead): string {
    if l.prefix.Some? then ":" + l.prefix.value + l.prefixGap else ""
  }

  /** A parameter with the gap in front of it. */
  datatype Spaced = Spaced(gap: string, word: string)

  /** Parameters without a colon, and a last one behind a colon. The fifteenth needs none. */
  datatype Args = Args(middles: seq<Spaced>, last: Option<string>, lastGap: string, colon: bool)

  predicate ArgsOk(a: Args) {
    && (forall i :: 0 <= i < |a.middles| ==> IsGap(a.middles[i].gap) && IsWord(a.middles[i].word))
    && |a.middles| <= MAX_PARAMS - 1 && (a.last.Some? ==> IsGap(a.lastGap))
  }

  /** With `n` parameters read before. */
  predicate LastOk(a: Args, n: nat) {
    a.last.Some? && !a.colon ==>
      n + |a.middles| == MAX_PARAMS - 1 && a.last.value != "" && a.last.value[0] !in {' ', ':'}
  }

  function LastWord(a: Args): string
    requires a.last.Some?
  {
    if a.colon then ":" + a.last.value else a.last.value
  }

  function LastPart(a: Args): string {
    if a.last.Some? then a.lastGap + LastWord(a) else ""
  }

  function MiddlePart(middles: seq<Spaced>): string {
    if middles == [] then "" else middles[0].gap + middles[0].word + MiddlePart(middles[1..])
  }

  function Words(middles: seq<Spaced>): seq<string> {
    seq(|middles|, i requires 0 <= i < |middles| => middles[i].word)
  }

  function ParamsOf(a: Args): seq<string> {
    Words(a.middles) + if a.last.Some? then [a.last.value] else []
  }

  function ArgsPart(a: Args): string {
    MiddlePart(a.middles) + LastPart(a)
  }

  // ----- words -----

  function Cut(s: string): string {
    TrimLeft(s, IsSpaceChar)
  }

  lemma {:induction false} GapIsCut(gap: string, rest: string)
    requires (forall i :: 0 <= i < |gap| ==> gap[i] == ' ') && (rest != "" ==> rest[0] != ' ')
    ensures Cut(gap + rest) == rest
    decreases |gap|
  {
    if gap == "" {
      assert gap + rest == rest;
    } else {
      assert (gap + rest)[1..] == gap[1..] + rest;
      GapIsCut(gap[1..], rest);
    }
  }

  /** The first word of a text, and what comes after the gap. */
  lemma FirstWord(word: string, gap: string, rest: string)
    requires ' ' !in word && IsGap(gap) && (rest != "" ==> rest[0] != ' ')
    ensures BeforeSpace(word + gap + rest) == word && AfterSpace(word + gap + rest) == rest
    ensures ' ' in word + gap + rest
  {
    var s := word + gap + rest;
    IndexOfSplit(word, ' ', gap[1..] + rest);
    assert s == word + [' '] + (gap[1..] + rest);
    assert s[|word| + 1..] == gap[1..] + rest;
    GapIsCut(gap[1..], rest);
    assert s[|word|] == ' ';
  }

  lemma OnlyWord(word: string)
    requires ' ' !in word
    ensures BeforeSpace(word) == word && AfterSpace(word) == ""
  {
    IndexOfAbsent(word, ' ');
  }

  // ----- parameters -----

  lemma LastParamRead(a: Args, n: nat)
    requires a.middles == [] && ArgsOk(a) && LastOk(a, n) && n <= MAX_PARAMS - 1
    ensures ParseParams(Cut(ArgsPart(a)), n) == ParamsOf(a)
  {
    if a.last.Some? {
      assert ArgsPart(a) == a.lastGap + LastWord(a);
      GapIsCut(a.lastGap, LastWord(a));
      assert (":" + a.last.value)[1..] == a.last.value;
    }
  }

  lemma WordsAfter(middles: seq<Spaced>)
    requires middles != []
    ensures Words(middles) == [middles[0].word] + Words(middles[1..])
  {
  }

  lemma ArgsAfter(a: Args)
    requires a.middles != [] && ArgsOk(a)
    ensures var m, more := a.middles[0], a.(middles := a.middles[1..]);
            && ArgsOk(more) && ArgsPart(a) == m.gap + (m.word + ArgsPart(more))
            && ParamsOf(a) == [m.word] + ParamsOf(more)
    ensures ArgsPart(a) != "" && ArgsPart(a)[0] == ' '
  {
    hide Words, LastPart;
    WordsAfter(a.middles);
    MiddlesAfter(a);
    var m, more := a.middles[0], a.(middles := a.middles[1..]);
    assert LastPart(more) == LastPart(a) by {
      SameLast(a, more);
    }
    assert m.gap + m.word + MiddlePart(more.middles) + LastPart(a)
        == m.gap + (m.word + (MiddlePart(more.middles) + LastPart(a)));
    assert ArgsPart(a)[0] == m.gap[0];
  }

  lemma SameLast(a: Args, b: Args)
    requires a.last == b.last && a.lastGap == b.lastGap && a.colon == b.colon
    ensures LastPart(a) == LastPart(b)
  {
  }

  lemma MiddlesAfter(a: Args)
    requires a.middles != [] && ArgsOk(a)
    ensures ArgsOk(a.(middles := a.middles[1..])) && IsGap(a.middles[0].gap) && IsWord(a.middles[0].word)
  {
    assert forall i :: 0 <= i < |a.middles| - 1 ==> a.middles[1..][i] == a.middles[i + 1];
  }

  lemma ArgsStart(a: Args)
    requires ArgsOk(a)
    ensures ArgsPart(a) == "" || ArgsPart(a)[0] == ' '
    ensures ArgsPart(a) == "" ==> ParamsOf(a) == []
  {
    if a.middles != [] {
      ArgsAfter(a);
    }
  }

  /** A word, with nothing or a space and more behind it. */
  lemma WordThen(word: string, tail: string)
    requires ' ' !in word && (tail != "" ==> tail[0] == ' ')
    ensures BeforeSpace(word + tail) == word
    ensures AfterSpace(word + tail) == Cut(tail)
    ensures ' ' in word + tail <==> tail != ""
  {
    var s := word + tail;
    if tail == "" {
      OnlyWord(word);
      assert s == word;
    } else {
      IndexOfSplit(word, ' ', tail[1..]);
      assert s == word + [' '] + tail[1..];
      assert s[|word| + 1..] == tail[1..];
      assert s[|word|] == ' ';
    }
  }

  /** One parameter without a colon in front of others. */
  lemma MiddleRead(word: string, tail: string, n: nat)
    requires IsWord(word) && (tail != "" ==> tail[0] == ' ') && n < MAX_PARAMS - 1
    ensures ParseParams(word + tail, n)
         == [word] + if tail == "" then [] else ParseParams(Cut(tail), n + 1)
  {
    WordThen(word, tail);
    assert (word + tail)[0] == word[0];
    if tail == "" {
      assert word + tail == word;
    }
  }

  /** Whatever the gaps, all parameters are read. */
  lemma {:induction false} ArgsRead(a: Args, n: nat)
    requires ArgsOk(a) && LastOk(a, n) && n + |a.middles| <= MAX_PARAMS - 1
    ensures ParseParams(Cut(ArgsPart(a)), n) == ParamsOf(a)
    decreases |a.middles|
  {
    hide ArgsPart, ParamsOf, Cut, ParseParams;
    if a.middles == [] {
      LastParamRead(a, n);
    } else {
      var m, more := a.middles[0], a.(middles := a.middles[1..]);
      ArgsAfter(a);
      GapIsCut(m.gap, m.word + ArgsPart(more));
      ArgsStart(more);
      assert (m.word + ArgsPart(more))[0] == m.word[0];
      MiddleRead(m.word, ArgsPart(more), n);
      ArgsRead(more, n + 1);
    }
  }

  // ----- whole lines -----

  /** The command with its parameters. */
  lemma CommandRead(tags: map<string, string>, prefix: string, command: string, a: Args)
    requires ' ' !in command && ArgsOk(a) && LastOk(a, 0)
    ensures ParseCommand(tags, prefix, command + ArgsPart(a))
         == if ValidCommand(command) then Ok(Message(tags, prefix, Upper(command), ParamsOf(a))) else Err(ErrBadCommand)
  {
    ArgsStart(a);
    WordThen(command, ArgsPart(a));
    ArgsRead(a, 0);
  }

  function TagsOf(l: Lead): Result<map<string, string>> {
    if l.tags.Some? then ParseTags(l.tags.value) else Ok(map[])
  }

  function PrefixOf(l: Lead): string {
    if l.prefix.Some? then l.prefix.value else ""
  }

  lemma PrefixRead(tags: map<string, string>, l: Lead, s: string)
    requires LeadOk(l) && s != "" && s[0] !in {' ', ':'}
    ensures PrefixPart(l) + s != "" && ParsePrefix(tags, PrefixPart(l) + s) == ParseCommand(tags, PrefixOf(l), s)
  {
    if l.prefix.Some? {
      var word := ":" + l.prefix.value;
      FirstWord(word, l.prefixGap, s);
      assert PrefixPart(l) + s == word + l.prefixGap + s;
      assert word[1..] == l.prefix.value;
    } else {
      assert PrefixPart(l) + s == s;
    }
  }

  lemma TagsRead(l: Lead, s: string)
    requires LeadOk(l) && l.tags.Some? && s != "" && s[0] != ' '
    ensures ParseText(TagPart(l) + s)
         == if TagsOf(l).Ok? then ParsePrefix(TagsOf(l).value, s) else Err(TagsOf(l).error)
  {
    var word := "@" + l.tags.value;
    FirstWord(word, l.tagGap, s);
    assert TagPart(l) + s == word + l.tagGap + s;
    assert word[1..] == l.tags.value;
  }

  /** The lead is taken off, whatever its gaps. */
  lemma LeadRead(l: Lead, s: string)
    requires LeadOk(l) && s != "" && s[0] !in {' ', ':', '@'}
    ensures ParseText(TagPart(l) + (PrefixPart(l) + s))
         == if TagsOf(l).Ok? then ParseCommand(TagsOf(l).value, PrefixOf(l), s) else Err(TagsOf(l).error)
  {
    var rest := PrefixPart(l) + s;
    assert rest[0] == if l.prefix.Some? then ':' else s[0];
    if TagsOf(l).Ok? {
      PrefixRead(TagsOf(l).value, l, s);
    }
    if l.tags.Some? {
      TagsRead(l, rest);
    } else {
      assert TagPart(l) + rest == rest;
    }
  }

  predicate Startable(command: string) {
    command != "" && command[0] !in {':', '@'} && ' ' !in command
  }

  function LineOf(l: Lead, command: string, a: Args): string {
    TagPart(l) + (PrefixPart(l) + (command + ArgsPart(a)))
  }

  /** Every way to write a message is read as that message, and the command in upper case. What cannot be read
      has a bad tag section or a bad command. */
  lemma LineRead(l: Lead, command: string, a: Args)
    requires LeadOk(l) && Startable(command) && ArgsOk(a) && LastOk(a, 0)
    ensures ParseText(LineOf(l, command, a))
         == if TagsOf(l).Err? then Err(TagsOf(l).error)
            else if !ValidCommand(command) then Err(ErrBadCommand)
            else Ok(Message(TagsOf(l).value, PrefixOf(l), Upper(command), ParamsOf(a)))
  {
    hide ParseCommand, ParseText, ArgsPart, ParamsOf, ValidCommand;
    var s := command + ArgsPart(a);
    assert s[0] == command[0];
    LeadRead(l, s);
    if TagsOf(l).Ok? {
      CommandRead(TagsOf(l).value, PrefixOf(l), command, a);
    }
  }

  /** A line that stops in front of the command is empty, and one that stops inside its tag section has bad tags. */
  lemma StopsShort(l: Lead)
    requires LeadOk(l)
    ensures ParseText(TagPart(l) + PrefixPart(l)) == Err(if TagsOf(l).Err? then TagsOf(l).error else ErrEmpty)
    ensures l.prefix.Some? ==>
              ParseText(TagPart(l) + (":" + l.prefix.value))
                == Err(if TagsOf(l).Err? then TagsOf(l).error else ErrEmpty)
    ensures l.tags.Some? ==> ParseText("@" + l.tags.value) == Err(ErrBadTags)
  {
    hide ParseText, ParsePrefix;
    if l.prefix.Some? {
      PrefixStops(l);
      AfterTags(l, PrefixPart(l));
      AfterTags(l, ":" + l.prefix.value);
    } else {
      AfterTags(l, "");
    }
    if l.tags.Some? {
      TagsStop(l.tags.value);
    }
  }

  /** What stands behind the tag section decides, if that can be read. */
  lemma AfterTags(l: Lead, rest: string)
    requires LeadOk(l) && (rest == "" || rest[0] == ':')
    ensures ParseText(TagPart(l) + rest)
         == if TagsOf(l).Err? then Err(TagsOf(l).error)
            else if rest == "" then Err(ErrEmpty)
            else ParsePrefix(TagsOf(l).value, rest)
  {
    hide ParsePrefix;
    if l.tags.Some? {
      var word := "@" + l.tags.value;
      FirstWord(word, l.tagGap, rest);
      assert TagPart(l) + rest == word + l.tagGap + rest;
      assert word[1..] == l.tags.value;
    } else {
      assert TagPart(l) + rest == rest;
    }
  }

  lemma PrefixStops(l: Lead)
    requires LeadOk(l) && l.prefix.Some?
    ensures forall tags: map<string, string> :: ParsePrefix(tags, PrefixPart(l)) == Err(ErrEmpty)
    ensures forall tags: map<string, string> :: ParsePrefix(tags, ":" + l.prefix.value) == Err(ErrEmpty)
  {
    var word := ":" + l.prefix.value;
    FirstWord(word, l.prefixGap, "");
    assert PrefixPart(l) == word + l.prefixGap + "";
    assert ' ' !in word;
  }

  lemma TagsStop(body: string)
    requires ' ' !in body
    ensures ParseText("@" + body) == Err(ErrBadTags)
  {
    assert ' ' !in "@" + body;
  }

  predicate Bare(text: string) {
    text != "" ==> text[|text| - 1] !in {'\r', '\n'}
  }

  lemma OneCharStripped(text: string, c: char)
    requires Bare(text) && c in {'\r', '\n'}
    ensures Stripped(text + [c]) == text && Stripped(text) == text
  {
    assert (text + [c])[..|text|] == text;
  }

  lemma BothStripped(text: string)
    ensures Stripped(text + ['\r', '\n']) == text
  {
    assert (text + ['\r', '\n'])[..|text| + 1] == text + ['\r'];
    assert (text + ['\r'])[..|text|] == text;
  }

  /** A line may end in CR LF, in either alone, or in neither. */
  lemma LineEnds(text: string, end: string)
    requires end in {"", ['\r'], ['\n'], ['\r', '\n']} && Bare(text)
    ensures ParseLine(text + end) == if |text| + |end| > MAX_MESSAGE_BYTES then Err(ErrTooLong) else ParseText(text)
  {
    hide Stripped, ParseText;
    OneCharStripped(text, '\r');
    OneCharStripped(text, '\n');
    BothStripped(text);
    assert text + "" == text;
  }

  // ----- tag sections -----

  /** A tag as it is written; without a '=' it has no value. */
  datatype Tag = Tag(key: string, value: Option<string>)

  predicate TagOk(t: Tag) {
    ';' !in t.key && '=' !in t.key && (t.value.Some? ==> ';' !in t.value.value)
  }

  function Written(t: Tag): string {
    t.key + if t.value.Some? then "=" + t.value.value else ""
  }

  function Section(tags: seq<Tag>): string {
    if tags == [] then "" else if |tags| == 1 then Written(tags[0]) else Written(tags[0]) + ";" + Section(tags[1..])
  }

  function AllWritten(tags: seq<Tag>): seq<string> {
    seq(|tags|, i requires 0 <= i < |tags| => Written(tags[i]))
  }

  lemma NoSemicolon(t: Tag)
    requires TagOk(t)
    ensures ';' !in Written(t)
  {
  }

  lemma SplitFirst(first: string, rest: string)
    requires ';' !in first
    ensures SplitTags(first) == [first] && SplitTags(first + ";" + rest) == [first] + SplitTags(rest)
  {
    var body := first + ";" + rest;
    IndexOfAbsent(first, ';');
    IndexOfSplit(first, ';', rest);
    assert body == first + [';'] + rest;
    assert body[|first| + 1..] == rest && body[..|first|] == first;
  }

  lemma AllWrittenCons(tags: seq<Tag>)
    requires tags != []
    ensures AllWritten(tags) == [Written(tags[0])] + AllWritten(tags[1..])
  {
  }

  lemma {:induction false} SectionSplits(tags: seq<Tag>)
    requires tags != [] && forall i :: 0 <= i < |tags| ==> TagOk(tags[i])
    ensures SplitTags(Section(tags)) == AllWritten(tags)
    decreases |tags|
  {
    hide SplitTags, AllWritten, Written, TagOk;
    AllWrittenCons(tags);
    NoSemicolon(tags[0]);
    if |tags| == 1 {
      SplitFirst(Written(tags[0]), "");
      assert tags[1..] == [];
      NothingWritten();
    } else {
      SplitFirst(Written(tags[0]), Section(tags[1..]));
      SectionSplits(tags[1..]);
    }
  }

  lemma NothingWritten()
    ensures AllWritten([]) == []
  {
  }

  lemma WrittenReads(t: Tag)
    requires TagOk(t)
    ensures TagKey(Written(t)) == t.key
    ensures TagValue(Written(t)) == if t.value.Some? then Unescape(t.value.value) else ""
  {
    if t.value.Some? {
      IndexOfSplit(t.key, '=', t.value.value);
      assert Written(t) == t.key + ['='] + t.value.value;
      assert Written(t)[|t.key| + 1..] == t.value.value;
    } else {
      IndexOfAbsent(t.key, '=');
      assert Written(t) == t.key;
    }
  }

  /** Tag `i` is the last one with its key. */
  predicate LastOfKey(tags: seq<Tag>, i: nat)
    requires i < |tags|
  {
    forall j :: i < j < |tags| ==> tags[j].key != tags[i].key
  }

  /** The keys that occur, each with the value of its last tag. */
  ghost predicate Means(tags: seq<Tag>, m: map<string, string>) {
    && (forall key :: key in m ==> exists i :: 0 <= i < |tags| && tags[i].key == key)
    && (forall i :: 0 <= i < |tags| ==> tags[i].key in m)
    && (forall i :: 0 <= i < |tags| && LastOfKey(tags, i) ==>
          m[tags[i].key] == if tags[i].value.Some? then Unescape(tags[i].value.value) else "")
  }

  lemma OneMore(front: seq<Tag>, t: Tag, m: map<string, string>)
    requires Means(front, m)
    ensures Means(front + [t], m[t.key := if t.value.Some? then Unescape(t.value.value) else ""])
  {
    var tags := front + [t];
    var m' := m[t.key := if t.value.Some? then Unescape(t.value.value) else ""];
    assert tags[|front|] == t;
    forall i | 0 <= i < |tags| && LastOfKey(tags, i)
      ensures m'[tags[i].key] == if tags[i].value.Some? then Unescape(tags[i].value.value) else ""
    {
      if i < |front| {
        assert tags[|front|].key != tags[i].key;
        assert forall j :: i < j < |front| ==> tags[j] == front[j];
        assert LastOfKey(front, i);
      }
    }
    forall key | key in m' ensures exists i :: 0 <= i < |tags| && tags[i].key == key {
      if key != t.key {
        var i :| 0 <= i < |front| && front[i].key == key;
        assert tags[i].key == key;
      }
    }
  }

  lemma NoTagsMean()
    ensures Means([], TagMap(AllWritten([])))
  {
  }

  lemma MapOfMore(front: seq<Tag>, t: Tag)
    requires TagOk(t)
    ensures TagMap(AllWritten(front + [t]))
         == TagMap(AllWritten(front))[t.key := if t.value.Some? then Unescape(t.value.value) else ""]
  {
    var all := AllWritten(front + [t]);
    WrittenReads(t);
    assert all[..|all| - 1] == AllWritten(front);
  }

  lemma {:induction false} MapMeans(tags: seq<Tag>)
    requires forall i :: 0 <= i < |tags| ==> TagOk(tags[i])
    ensures Means(tags, TagMap(AllWritten(tags)))
    decreases |tags|
  {
    hide Means, TagMap, AllWritten;
    if tags == [] {
      NoTagsMean();
    } else {
      var front, last := tags[..|tags| - 1], tags[|tags| - 1];
      MapMeans(front);
      OneMore(front, last, TagMap(AllWritten(front)));
      MapOfMore(front, last);
      assert tags == front + [last];
    }
  }

  /** A tag section is refused if and only if a key is empty. Otherwise the last tag with a key gives its value,
      unescaped, and a tag without a '=' the empty value. */
  lemma SectionMeans(tags: seq<Tag>)
    requires tags != [] && forall i :: 0 <= i < |tags| ==> TagOk(tags[i])
    ensures if exists i :: 0 <= i < |tags| && tags[i].key == "" then ParseTags(Section(tags)) == Err(ErrBadTags)
            else ParseTags(Section(tags)).Ok? && Means(tags, ParseTags(Section(tags)).value)
  {
    SectionSplits(tags);
    MapMeans(tags);
    var all := AllWritten(tags);
    forall i | 0 <= i < |tags| ensures all[i] == Written(tags[i]) && TagKey(all[i]) == tags[i].key {
      WrittenReads(tags[i]);
    }
  }

  lemma EscapedThen(s: string, rest: string)
    requires s != ""
    ensures Escape(s) + rest == EscapeChar(s[0]) + (Escape(s[1..]) + rest)
  {
  }

  lemma NothingEscaped(rest: string)
    ensures Escape("") + rest == rest && "" + Unescape(rest) == Unescape(rest)
  {
  }

  lemma {:induction false} UnescapeThen(s: string, rest: string)
    ensures Unescape(Escape(s) + rest) == s + Unescape(rest)
  {
    hide Unescape, Escape, EscapeChar;
    if s == "" {
      NothingEscaped(rest);
    } else {
      UnescapeThen(s[1..], rest);
      EscapedThen(s, rest);
      WireRoundTrip.EscapeCharUnescapes(s[0], Escape(s[1..]) + rest);
      assert [s[0]] + (s[1..] + Unescape(rest)) == s + Unescape(rest);
    }
  }

  /** A backslash in front of any other character is dropped, and so is one at the end. */
  lemma LooseBackslashes(s: string, c: char, t: string)
    requires c !in {':', 's', 'r', 'n', '\\'}
    ensures Unescape(Escape(s) + (['\\', c] + Escape(t))) == s + [c] + t
    ensures Unescape(Escape(s) + "\\") == s
  {
    hide Unescape, Escape;
    UnescapeThen(s, ['\\', c] + Escape(t));
    UnescapeThen(s, "\\");
    UnescapeThen(t, "");
    assert Escape(t) + "" == Escape(t);
    LooseOne(c, Escape(t));
    assert s + ([c] + t) == s + [c] + t && t + "" == t;
  }

  lemma LooseOne(c: char, rest: string)
    requires c !in {':', 's', 'r', 'n', '\\'}
    ensures Unescape(['\\', c] + rest) == [c] + Unescape(rest) && Unescape("\\") == "" && Unescape("") == ""
  {
    assert (['\\', c] + rest)[2..] == rest;
  }

  // ----- the case of commands -----

  predicate IsLower(c: char) {
    'a' <= c <= 'z'
  }

  predicate IsUpper(c: char) {
    'A' <= c <= 'Z'
  }

  /** The same letter in upper and lower case: the same place in the two alphabets. */
  predicate SameUpToCase(c: char, d: char) {
    || c == d
    || (IsUpper(c) && IsLower(d) && c as int - 'A' as int == d as int - 'a' as int)
    || (IsLower(c) && IsUpper(d) && c as int - 'a' as int == d as int - 'A' as int)
  }

  predicate SameWord(s: string, t: string) {
    |s| == |t| && forall i :: 0 <= i < |s| ==> SameUpToCase(s[i], t[i])
  }

  /** The word stands in the text at `from`, up to case. */
  predicate StandsAt(s: string, word: string, from: nat) {
    from + |word| <= |s| && SameWord(s[from..from + |word|], word)
  }

  lemma StandsFurtherOn(s: string, off: nat, word: string, from: nat)
    requires off <= |s| && StandsAt(s[off..], word, from)
    ensures StandsAt(s, word, off + from)
  {
    assert s[off..][from..from + |word|] == s[off + from..off + from + |word|];
  }

  /** Capital letters, or three digits. */
  predicate Capitals(s: string) {
    && s != ""
    && ((forall i :: 0 <= i < |s| ==> IsUpper(s[i])) || (|s| == 3 && forall i :: 0 <= i < |s| ==> IsDigit(s[i])))
  }

  /** The one spelling of a word in capitals. */
  lemma UpperIsCapitals(s: string, t: string)
    ensures t == Upper(s) <==> SameWord(s, t) && forall i :: 0 <= i < |t| ==> !IsLower(t[i])
  {
    forall i | 0 <= i < |s| ensures Upper(s)[i] == UpperChar(s[i]) {
    }
    if SameWord(s, t) && forall i :: 0 <= i < |t| ==> !IsLower(t[i]) {
      forall i | 0 <= i < |t| ensures t[i] == Upper(s)[i] {
        assert SameUpToCase(s[i], t[i]);
      }
    }
  }

  lemma SameCapitals(s: string, t: string)
    requires SameWord(s, t)
    ensures Upper(s) == Upper(t)
  {
    UpperIsCapitals(s, Upper(s));
    UpperIsCapitals(t, Upper(t));
    forall i | 0 <= i < |t| ensures SameUpToCase(t[i], Upper(s)[i]) {
      assert SameUpToCase(s[i], t[i]) && SameUpToCase(s[i], Upper(s)[i]);
    }
    UpperIsCapitals(t, Upper(s));
  }

  lemma SameIsDigit(c: char, d: char)
    requires SameUpToCase(c, d)
    ensures (IsDigit(c) <==> IsDigit(d)) && (IsLetter(c) <==> IsLetter(d))
  {
  }

  lemma {:induction false} SameValidity(s: string, t: string)
    requires SameWord(s, t)
    ensures ValidCommand(s) == ValidCommand(t)
  {
    forall i | 0 <= i < |s| ensures (IsDigit(s[i]) <==> IsDigit(t[i])) && (IsLetter(s[i]) <==> IsLetter(t[i])) {
      SameIsDigit(s[i], t[i]);
    }
    assert IsAllDigits(s) == IsAllDigits(t);
  }

  /** Two lines that differ only in the case of the command's letters are read alike. */
  lemma CommandCaseIsIgnored(l: Lead, c: string, d: string, a: Args)
    requires LeadOk(l) && ArgsOk(a) && LastOk(a, 0) && SameWord(c, d) && Startable(c) && Startable(d)
    ensures ParseText(LineOf(l, c, a)) == ParseText(LineOf(l, d, a))
  {
    LineRead(l, c, a);
    LineRead(l, d, a);
    SameCapitals(c, d);
    SameValidity(c, d);
  }

  lemma ReadCommand(tags: map<string, string>, prefix: string, s: string)
    requires ParseCommand(tags, prefix, s).Ok?
    ensures var command := ParseCommand(tags, prefix, s).value.command;
            && SameWord(BeforeSpace(s), command) && (forall i :: 0 <= i < |command| ==> !IsLower(command[i]))
            && ValidCommand(BeforeSpace(s))
  {
    UpperIsCapitals(BeforeSpace(s), Upper(BeforeSpace(s)));
  }

  lemma StrippedIsPrefix(line: string)
    ensures |Stripped(line)| <= |line| && Stripped(line) == line[..|Stripped(line)|]
  {
  }

  lemma StandsInLonger(s: string, line: string, word: string, from: nat)
    requires |s| <= |line| && s == line[..|s|] && StandsAt(s, word, from)
    ensures StandsAt(line, word, from)
  {
    assert line[from..from + |word|] == s[from..from + |word|];
  }

  /** Every command that is read is a word of the line in capitals. */
  lemma CommandsAreCapitals(line: string)
    requires ParseLine(line).Ok?
    ensures var command := ParseLine(line).value.command;
            Capitals(command) && exists from: nat :: StandsAt(line, command, from)
  {
    hide Capitals, StandsAt, ParseText, Stripped;
    var from := CommandAt(Stripped(line));
    StrippedIsPrefix(line);
    StandsInLonger(Stripped(line), line, ParseLine(line).value.command, from);
  }

  lemma TextSplits(s: string)
    requires ParseText(s).Ok?
    ensures s != "" && (s[0] == '@' ==> BeforeSpace(s) != "")
    ensures if s[0] == '@' then
              ParseTags(BeforeSpace(s)[1..]).Ok? && AfterSpace(s) != ""
              && ParseText(s) == ParsePrefix(ParseTags(BeforeSpace(s)[1..]).value, AfterSpace(s))
            else ParseText(s) == ParsePrefix(map[], s)
  {
  }

  /** Where the command of a text stands. */
  lemma CommandAt(s: string) returns (from: nat)
    requires ParseText(s).Ok?
    ensures var command := ParseText(s).value.command; StandsAt(s, command, from) && Capitals(command)
  {
    hide Capitals, StandsAt, ParseText, ParsePrefix, ParseTags, AfterSpace, BeforeSpace;
    TextSplits(s);
    if s[0] == '@' {
      var off := AfterIsSuffix(s);
      from := CommandInPrefixed(ParseTags(BeforeSpace(s)[1..]).value, AfterSpace(s));
      StandsFurtherOn(s, off, ParseText(s).value.command, from);
      from := off + from;
    } else {
      from := CommandInPrefixed(map[], s);
    }
  }

  lemma {:induction false} TrimmedIsSuffix(s: string)
    ensures |TrimLeft(s, IsSpaceChar)| <= |s| && TrimLeft(s, IsSpaceChar) == s[|s| - |TrimLeft(s, IsSpaceChar)|..]
    decreases |s|
  {
    if s != "" && s[0] == ' ' {
      TrimmedIsSuffix(s[1..]);
    }
  }

  lemma AfterIsSuffix(s: string) returns (off: nat)
    ensures off <= |s| && AfterSpace(s) == s[off..]
  {
    var i := IndexOf(s, ' ');
    if i < |s| {
      TrimmedIsSuffix(s[i + 1..]);
      off := |s| - |AfterSpace(s)|;
    } else {
      off := |s|;
    }
  }

  lemma CommandInPrefixed(tags: map<string, string>, s: string) returns (from: nat)
    requires s != "" && ParsePrefix(tags, s).Ok?
    ensures var command := ParsePrefix(tags, s).value.command;
            && StandsAt(s, command, from)
            && Capitals(command)
  {
    if s[0] == ':' {
      var off := AfterIsSuffix(s);
      CommandWord(tags, BeforeSpace(s)[1..], AfterSpace(s));
      StandsFurtherOn(s, off, ParsePrefix(tags, s).value.command, 0);
      from := off;
    } else {
      CommandWord(tags, "", s);
      from := 0;
    }
  }

  lemma CommandWord(tags: map<string, string>, prefix: string, s: string)
    requires ParseCommand(tags, prefix, s).Ok?
    ensures var command := ParseCommand(tags, prefix, s).value.command;
            && StandsAt(s, command, 0)
            && Capitals(command)
  {
    ReadCommand(tags, prefix, s);
    var word := BeforeSpace(s);
    assert word == s[0..|word|];
    if IsAllDigits(word) {
      assert forall i :: 0 <= i < |word| ==> IsDigit(word[i]);
    } else {
      assert forall i :: 0 <= i < |word| ==> IsLetter(word[i]);
    }
  }

  // ----- what cannot be written -----

  /** A parameter with a character that would end the line, or one before the last that cannot stand there: empty,
      with a space in it, or with a colon in front. */
  ghost predicate BadParam(params: seq<string>, i: nat)
    requires i < |params|
  {
    || (exists c :: c in params[i] && c in {'\r', '\n', '\0'})
    || (i < |params| - 1 && (params[i] == "" || params[i][0] == ':' || ' ' in params[i]))
  }

  lemma BadIsNotOk(params: seq<string>)
    ensures ParamsOk(params) <==> forall i :: 0 <= i < |params| ==> !BadParam(params, i)
  {
    forall i | 0 <= i < |params|
      ensures BadParam(params, i) <==> !(if i == |params| - 1 then TrailingOk(params[i]) else MiddleOk(params[i]))
    {
      assert TrailingOk(params[i]) <==> forall c :: c in params[i] ==> Clean(c);
    }
  }

  /** Why a message cannot be written: too many parameters, a bad command or parameter, or its length, in this
      order. */
  lemma WhyNotWritten(m: Message)
    requires m.tags == map[] && Capitals(m.command)
    ensures var out := EncodeIn(m, []);
            && (out == Err(ErrTooManyParams) <==> |m.params| > 15)
            && (out == Err(ErrBadCommand) <==>
                  |m.params| <= 15 && exists i :: 0 <= i < |m.params| && BadParam(m.params, i))
            && (out == Err(ErrTooLong) <==>
                  && |m.params| <= 15 && (forall i :: 0 <= i < |m.params| ==> !BadParam(m.params, i))
                  && |Text(m, [])| > 510)
  {
    BadIsNotOk(m.params);
    CapitalsAreValid(m.command);
  }

  lemma CapitalsAreValid(s: string)
    requires Capitals(s)
    ensures ValidCommand(s)
  {
    if IsUpper(s[0]) {
      assert !IsDigit(s[0]);
      assert forall i :: 0 <= i < |s| ==> IsUpper(s[i]);
    }
  }
}
