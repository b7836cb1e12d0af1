/** Keys and flow sequences as one would write them are read back as they were meant. */
module YamlInline {
  import opened Prelude
  import opened YamlText

  /** A gap of spaces and tabs. */
  predicate IsGap(gap: string) {
    forall i :: 0 <= i < |gap| ==> gap[i] == ' ' || gap[i] == '\t'
  }

  /** Text that does not start with a gap. */
  predicate Unspaced(s: string) {
    s != "" ==> s[0] != ' ' && s[0] != '\t'
  }

  lemma GapIsBlank(gap: string, s: string)
    requires IsGap(gap)
    ensures AllOf(gap, IsBlank) && AllOf(gap, IsSpace) && (Unspaced(s) <==> s == "" || !IsBlank(s[0]))
  {
  }

  // ----- trimming -----

  ghost predicate AllOf(s: string, p: char -> bool) {
    forall i :: 0 <= i < |s| ==> p(s[i])
  }

  /** Blanks in front are cut, and only those. */
  lemma {:induction false} TrimLeftGap(gap: string, s: string, cut: char -> bool)
    requires AllOf(gap, cut) && (s != "" ==> !cut(s[0]))
    ensures TrimLeft(gap + s, cut) == s
    decreases |gap|
  {
    if gap == "" {
      assert gap + s == s;
    } else {
      assert (gap + s)[1..] == gap[1..] + s;
      TrimLeftGap(gap[1..], s, cut);
    }
  }

  /** No white space at either end. */
  predicate Trimmed(s: string) {
    s != "" && s[0] !in WHITE && s[|s| - 1] !in WHITE
  }

  const WHITE: set<char> := {' ', '\t', '\n', '\r', '\U{000B}', '\U{000C}'}

  lemma TrimSpaceGap(gap: string, s: string)
    requires AllOf(gap, IsSpace) && Trimmed(s)
    ensures TrimSpace(gap + s) == s
  {
    TrimLeftGap(gap, s, IsSpace);
  }

  lemma TrimSpaceTrimmed(s: string)
    requires Trimmed(s)
    ensures TrimSpace(s) == s
  {
    TrimSpaceGap("", s);
    assert "" + s == s;
  }

  // ----- flow sequences -----

  predicate Quiet(s: string) {
    ',' !in s && '"' !in s && '\'' !in s
  }

  predicate PlainToken(t: string) {
    Trimmed(t) && Quiet(t)
  }

  /** A token in double quotes, which may hold commas and anything else, or in single quotes. */
  ghost predicate QuotedToken(t: string) {
    (exists s: string :: t == Quoted(s)) || (exists s: string :: '\'' !in s && t == Single(s))
  }

  function Single(s: string): string {
    "'" + s + "'"
  }

  ghost predicate FlowWord(t: string) {
    PlainToken(t) || QuotedToken(t)
  }

  lemma QuotedIsTrimmed(t: string)
    requires QuotedToken(t)
    ensures Trimmed(t)
  {
  }

  lemma EscapedReadsOn(c: char, more: string, cur: string)
    ensures Flow(EscapeOne(c) + more, cur, true, false) == Flow(more, cur + EscapeOne(c), true, false)
  {
    var e := EscapeOne(c);
    var body := e + more;
    assert body[|e|..] == more && body[..|e|] == e && body[0] == e[0];
  }

  /** A double quote opens and closes. */
  lemma DoubleQuoteReads(open: bool, more: string, cur: string)
    ensures Flow("\"" + more, cur, open, false) == Flow(more, cur + "\"", !open, false)
  {
    assert ("\"" + more)[1..] == more;
  }

  lemma SingleQuoteReads(open: bool, more: string, cur: string)
    ensures Flow("'" + more, cur, false, open) == Flow(more, cur + "'", false, !open)
  {
    assert ("'" + more)[1..] == more;
  }

  lemma {:induction false} DoubleReadsOn(s: string, rest: string, cur: string)
    ensures Flow(EscapeAll(s) + ("\"" + rest), cur, true, false) == Flow(rest, cur + EscapeAll(s) + "\"", false, false)
    decreases |s|
  {
    hide Flow, EscapeOne;
    if s == "" {
      DoubleQuoteReads(true, rest, cur);
      assert EscapeAll(s) + ("\"" + rest) == "\"" + rest && cur + EscapeAll(s) == cur;
    } else {
      var e, more := EscapeOne(s[0]), EscapeAll(s[1..]) + ("\"" + rest);
      EscapedReadsOn(s[0], more, cur);
      DoubleReadsOn(s[1..], rest, cur + e);
      assert EscapeAll(s) + ("\"" + rest) == e + more;
      assert cur + e + EscapeAll(s[1..]) == cur + EscapeAll(s);
    }
  }

  lemma {:induction false} SingleReadsOn(s: string, rest: string, cur: string)
    requires '\'' !in s
    ensures Flow(s + ("'" + rest), cur, false, true) == Flow(rest, cur + s + "'", false, false)
    decreases |s|
  {
    if s == "" {
      SingleQuoteReads(true, rest, cur);
      assert s + ("'" + rest) == "'" + rest && cur + s == cur;
    } else {
      var body := s + ("'" + rest);
      assert body[0] == s[0] && s[0] in s && body[1..] == s[1..] + ("'" + rest);
      SingleReadsOn(s[1..], rest, cur + [s[0]]);
      assert cur + [s[0]] + s[1..] == cur + s;
    }
  }

  lemma DoubleTokenReadsOn(s: string, rest: string, cur: string)
    ensures Flow(Quoted(s) + rest, cur, false, false) == Flow(rest, cur + Quoted(s), false, false)
  {
    hide Flow, EscapeAll;
    DoubleQuoteReads(false, EscapeAll(s) + ("\"" + rest), cur);
    DoubleReadsOn(s, rest, cur + "\"");
    assert Quoted(s) + rest == "\"" + (EscapeAll(s) + ("\"" + rest));
    assert cur + "\"" + EscapeAll(s) + "\"" == cur + Quoted(s);
  }

  lemma SingleTokenReadsOn(s: string, rest: string, cur: string)
    requires '\'' !in s
    ensures Flow(Single(s) + rest, cur, false, false) == Flow(rest, cur + Single(s), false, false)
  {
    hide Flow;
    SingleQuoteReads(false, s + ("'" + rest), cur);
    SingleReadsOn(s, rest, cur + "'");
    assert Single(s) + rest == "'" + (s + ("'" + rest));
    assert cur + "'" + s + "'" == cur + Single(s);
  }

  /** A quoted token is read to its closing quote. */
  lemma QuotedReadsOn(t: string, rest: string, cur: string)
    requires QuotedToken(t)
    ensures Flow(t + rest, cur, false, false) == Flow(rest, cur + t, false, false)
  {
    hide Flow, Quoted, Single;
    if s: string :| t == Quoted(s) {
      DoubleTokenReadsOn(s, rest, cur);
    } else {
      var s: string :| '\'' !in s && t == Single(s);
      SingleTokenReadsOn(s, rest, cur);
    }
  }

  /** The tokens with a comma, and a gap after it, in between. */
  function Joined(tokens: seq<string>, gap: string): string {
    if tokens == [] then ""
    else if |tokens| == 1 then tokens[0]
    else tokens[0] + ("," + (gap + Joined(tokens[1..], gap)))
  }

  lemma {:induction false} FlowReadsOn(a: string, rest: string, cur: string)
    requires Quiet(a)
    ensures Flow(a + rest, cur, false, false) == Flow(rest, cur + a, false, false)
    decreases |a|
  {
    if a == "" {
      assert a + rest == rest && cur + a == cur;
    } else {
      assert (a + rest)[1..] == a[1..] + rest && a[0] in a;
      FlowReadsOn(a[1..], rest, cur + [a[0]]);
      assert cur + [a[0]] + a[1..] == cur + a;
    }
  }

  /** One token with the gap in front of it, at the end of the text or before a comma. */
  lemma FlowToken(front: string, t: string, tail: string)
    requires FlowWord(t) && AllOf(front, IsSpace) && Quiet(front)
    requires tail == "" || tail[0] == ','
    ensures Flow(front + (t + tail), "", false, false)
         == if tail == "" then Some([t]) else Before([t], Flow(tail[1..], "", false, false))
  {
    hide QuotedToken;
    FlowReadsOn(front, t + tail, "");
    assert "" + front == front;
    if PlainToken(t) {
      FlowReadsOn(t, tail, front);
    } else {
      QuotedReadsOn(t, tail, front);
      QuotedIsTrimmed(t);
    }
    TrimSpaceGap(front, t);
  }

  lemma {:induction false} FlowOfJoined(tokens: seq<string>, gap: string, front: string)
    requires tokens != [] && (forall t :: t in tokens ==> FlowWord(t))
    requires AllOf(gap, IsSpace) && AllOf(front, IsSpace) && Quiet(gap) && Quiet(front)
    ensures Flow(front + Joined(tokens, gap), "", false, false) == Some(tokens)
    decreases |tokens|
  {
    hide Flow, AllOf, FlowWord, Quiet;
    var t := tokens[0];
    assert t in tokens;
    if |tokens| == 1 {
      FlowToken(front, t, "");
      assert t + "" == t && tokens == [t];
    } else {
      var rest := gap + Joined(tokens[1..], gap);
      FlowToken(front, t, "," + rest);
      assert ("," + rest)[1..] == rest;
      FlowOfJoined(tokens[1..], gap, gap);
      assert tokens == [t] + tokens[1..];
    }
  }

  lemma {:induction false} JoinedIsTrimmed(tokens: seq<string>, gap: string)
    requires tokens != [] && forall t :: t in tokens ==> Trimmed(t)
    ensures Trimmed(Joined(tokens, gap))
    decreases |tokens|
  {
    assert tokens[0] in tokens;
    if |tokens| > 1 {
      JoinedIsTrimmed(tokens[1..], gap);
    }
  }

  /** Writing plain and quoted tokens with commas, with or without spaces after them, and reading the flow sequence
      gives the tokens. */
  lemma FlowRoundTrip(tokens: seq<string>, gap: string)
    requires (forall t :: t in tokens ==> FlowWord(t)) && IsGap(gap)
    ensures FlowItems(Joined(tokens, gap)) == Some(tokens)
  {
    hide QuotedToken, Flow;
    GapIsBlank(gap, "");
    if tokens == [] {
      assert TrimSpace("") == "";
    } else {
      assert Quiet(gap) by {
        assert !IsSpace(',') && !IsSpace('"') && !IsSpace('\'');
      }
      forall t | t in tokens ensures Trimmed(t) {
        if QuotedToken(t) {
          QuotedIsTrimmed(t);
        }
      }
      JoinedIsTrimmed(tokens, gap);
      TrimSpaceTrimmed(Joined(tokens, gap));
      FlowOfJoined(tokens, gap, "");
      assert "" + Joined(tokens, gap) == Joined(tokens, gap);
    }
  }

  /** Nothing but a gap between two commas, or behind the last one, is no item. */
  lemma EmptyItemsSkipped(a: string, gap: string, b: string)
    requires FlowWord(a) && FlowWord(b) && IsGap(gap)
    ensures FlowItems(a + ("," + (gap + ("," + (gap + b))))) == Some([a, b])
    ensures FlowItems(a + ",") == Some([a])
  {
    hide Flow, FlowWord, AllOf, Quiet, TrimSpace;
    TwoItems(a, gap, b);
    OneItem(a);
    WordsTrimmed(a, "," + (gap + ("," + gap)), b);
    assert a + ("," + (gap + ("," + gap))) + b == a + ("," + (gap + ("," + (gap + b))));
    EndsTrimmed(a, ",");
  }

  lemma TwoItems(a: string, gap: string, b: string)
    requires FlowWord(a) && FlowWord(b) && IsGap(gap)
    ensures Flow(a + ("," + (gap + ("," + (gap + b)))), "", false, false) == Some([a, b])
  {
    hide Flow, FlowWord, AllOf, Quiet;
    var last := gap + (b + "");
    var rest := gap + ("," + last);
    GapIsQuiet(gap);
    FlowToken(gap, b, "");
    assert ("," + last)[1..] == last && ("," + rest)[1..] == rest;
    FlowBlank(gap, "," + last);
    FlowToken("", a, "," + rest);
    assert "" + (a + ("," + rest)) == a + ("," + (gap + ("," + (gap + b))));
    assert [a] + [b] == [a, b];
  }

  lemma OneItem(a: string)
    requires FlowWord(a)
    ensures Flow(a + ",", "", false, false) == Some([a])
  {
    hide Flow, FlowWord, AllOf, Quiet;
    GapIsQuiet("");
    FlowBlank("", "");
    assert ","[1..] == "" && "" + "" == "" && "" + (a + ",") == a + "," && [a] + [] == [a];
    FlowToken("", a, ",");
  }

  lemma GapIsQuiet(gap: string)
    requires IsGap(gap)
    ensures AllOf(gap, IsSpace) && Quiet(gap) && AllOf("", IsSpace) && Quiet("")
  {
  }

  lemma FlowBlank(front: string, tail: string)
    requires AllOf(front, IsSpace) && Quiet(front) && (tail == "" || tail[0] == ',')
    ensures Flow(front + tail, "", false, false) == if tail == "" then Some([]) else Flow(tail[1..], "", false, false)
  {
    FlowReadsOn(front, tail, "");
    assert "" + front == front;
    BlankTrims(front);
    if tail != "" {
      BeforeNothing(Flow(tail[1..], "", false, false));
    }
  }

  lemma BlankTrims(front: string)
    requires AllOf(front, IsSpace)
    ensures TrimSpace(front) == ""
  {
    TrimLeftGap(front, "", IsSpace);
    assert front + "" == front;
  }

  lemma WordIsTrimmed(t: string)
    requires FlowWord(t)
    ensures Trimmed(t)
  {
    if QuotedToken(t) {
      QuotedIsTrimmed(t);
    }
  }

  lemma WordsTrimmed(a: string, middle: string, b: string)
    requires FlowWord(a) && FlowWord(b)
    ensures TrimSpace(a + middle + b) == a + middle + b != ""
  {
    WordIsTrimmed(a);
    WordIsTrimmed(b);
    TrimSpaceTrimmed(a + middle + b);
  }

  lemma EndsTrimmed(a: string, end: string)
    requires FlowWord(a) && end == ","
    ensures TrimSpace(a + end) == a + end != ""
  {
    WordIsTrimmed(a);
    TrimSpaceTrimmed(a + end);
  }

  /** A quote that is not closed makes the sequence an error. */
  lemma {:induction false} OpenSingleQuote(s: string, cur: string)
    requires '\'' !in s
    ensures Flow(s, cur, false, true) == None
    decreases |s|
  {
    if s != "" {
      assert s[0] in s && forall c :: c in s[1..] ==> c in s;
      OpenSingleQuote(s[1..], cur + [s[0]]);
    }
  }

  lemma {:induction false} OpenDoubleQuote(s: string, cur: string)
    ensures Flow(EscapeAll(s), cur, true, false) == None
    decreases |s|
  {
    hide EscapeOne;
    if s != "" {
      EscapedReadsOn(s[0], EscapeAll(s[1..]), cur);
      OpenDoubleQuote(s[1..], cur + EscapeOne(s[0]));
    }
  }

  lemma OpenQuoteRefused(s: string)
    requires Trimmed("'" + s) && Trimmed("\"" + EscapeAll(s))
    ensures '\'' !in s ==> FlowItems("'" + s) == None
    ensures FlowItems("\"" + EscapeAll(s)) == None
  {
    hide Flow, EscapeAll;
    TrimSpaceTrimmed("'" + s);
    TrimSpaceTrimmed("\"" + EscapeAll(s));
    DoubleQuoteReads(false, EscapeAll(s), "");
    SingleQuoteReads(false, s, "");
    OpenDoubleQuote(s, "" + "\"");
    if '\'' !in s {
      OpenSingleQuote(s, "" + "'");
    }
  }

  // ----- bare keys -----

  /** A bare key may hold colons, but not one followed by a blank. */
  predicate PlainKey(key: string) {
    && key != "" && key[0] != '"' && key[0] != '\'' && key[|key| - 1] != ' ' && key[|key| - 1] != '\t'
    && forall i :: 0 <= i < |key| - 1 ==> !(key[i] == ':' && (key[i + 1] == ' ' || key[i + 1] == '\t'))
  }

  /** What follows the colon: nothing, or a gap and text. */
  predicate Follows(gap: string, rest: string) {
    IsGap(gap) && Unspaced(rest) && (rest != "" ==> gap != "")
  }

  lemma {:induction false} BareKeyFrom(key: string, tail: string, i: nat)
    requires PlainKey(key) && i <= |key| && (tail != "" ==> IsBlank(tail[0]))
    ensures BareKey(key + (":" + tail), i) == BareKey(key + (":" + tail), |key|)
    decreases |key| - i
  {
    if i < |key| {
      BareKeyFrom(key, tail, i + 1);
      var line := key + (":" + tail);
      assert line[i] == key[i] && line[i + 1] == if i + 1 < |key| then key[i + 1] else ':';
    }
  }

  lemma BareKeyRoundTrip(key: string, gap: string, rest: string)
    requires PlainKey(key) && Follows(gap, rest)
    ensures MappingKey(key + (":" + (gap + rest))) == Some(KeyRest(key, rest))
  {
    var line := key + (":" + (gap + rest));
    GapIsBlank(gap, rest);
    BareKeyFrom(key, gap + rest, 0);
    assert line[..|key|] == key && line[|key| + 1..] == gap + rest && line[0] == key[0];
    TrimLeftGap(gap, rest, IsBlank);
    assert EndsKey(line, |key|);
    assert TrimRight(key, IsBlank) == key;
  }

  /** A colon with nothing but a gap in front of it, and a gap or nothing behind, is no key. */
  lemma NoEmptyKey(gap: string, tail: string)
    requires IsGap(gap) && (tail == "" || tail[0] == ' ' || tail[0] == '\t')
    ensures MappingKey(gap + (":" + tail)) == None
  {
    var line := gap + (":" + tail);
    GapBeforeColon(gap, tail, 0);
    assert line[..|gap|] == gap && line[|gap| + 1..] == tail;
    GapTrims(gap);
    assert line[0] != '"' && line[0] != '\'';
  }

  lemma {:induction false} GapBeforeColon(gap: string, tail: string, i: nat)
    requires IsGap(gap) && i <= |gap|
    ensures BareKey(gap + (":" + tail), i) == BareKey(gap + (":" + tail), |gap|)
    decreases |gap| - i
  {
    if i < |gap| {
      assert (gap + (":" + tail))[i] == gap[i];
      GapBeforeColon(gap, tail, i + 1);
    }
  }

  lemma {:induction false} GapTrims(gap: string)
    requires IsGap(gap)
    ensures TrimRight(gap, IsBlank) == ""
    decreases |gap|
  {
    if gap != "" {
      GapTrims(gap[..|gap| - 1]);
    }
  }

  // ----- double-quoted keys -----

  function EscapeOne(c: char): string {
    match c
    case '"' => "\\\""
    case '\\' => "\\\\"
    case '\n' => "\\n"
    case '\t' => "\\t"
    case '\r' => "\\r"
    case _ => [c]
  }

  function EscapeAll(s: string): string {
    if s == "" then "" else EscapeOne(s[0]) + EscapeAll(s[1..])
  }

  function Quoted(s: string): string {
    "\"" + EscapeAll(s) + "\""
  }

  lemma {:induction false} UnescapeEscaped(s: string)
    ensures Unescape(EscapeAll(s)) == s
  {
    hide Unescape, EscapeOne;
    if s == "" {
      NothingUnescaped();
    } else {
      UnescapeEscaped(s[1..]);
      UnescapeOne(s[0], EscapeAll(s[1..]));
      assert [s[0]] + s[1..] == s;
    }
  }

  lemma NothingUnescaped()
    ensures Unescape("") == ""
  {
  }

  lemma UnescapeOne(c: char, rest: string)
    ensures Unescape(EscapeOne(c) + rest) == [c] + Unescape(rest)
  {
    var e := EscapeOne(c);
    assert (e + rest)[|e|..] == rest && (e + rest)[0] == e[0];
  }

  /** The closing quote is found behind the escaped text. */
  lemma {:induction false} QuoteEndsThere(before: string, s: string, after: string)
    ensures QuoteEnd(before + (EscapeAll(s) + ("\"" + after)), '"', |before|) == Some(|before| + |EscapeAll(s)|)
    decreases |s|
  {
    var line := before + (EscapeAll(s) + ("\"" + after));
    if s == "" {
      assert line[|before|] == '"';
    } else {
      var e, more := EscapeOne(s[0]), EscapeAll(s[1..]);
      QuoteEndsThere(before + e, s[1..], after);
      assert line == (before + e) + (more + ("\"" + after));
      assert line[|before|] == e[0];
    }
  }

  lemma UnquoteQuoted(s: string)
    ensures Unquote(Quoted(s)) == s
  {
    var q := Quoted(s);
    assert q[1..|q| - 1] == EscapeAll(s);
    UnescapeEscaped(s);
  }

  lemma QuotedKeyEnds(key: string, tail: string)
    ensures var line := Quoted(key) + (":" + tail);
            line != "" && line[0] == '"' && QuoteEnd(line, '"', 1) == Some(|Quoted(key)| - 1)
  {
    QuoteEndsThere("\"", key, ":" + tail);
    assert Quoted(key) + (":" + tail) == "\"" + (EscapeAll(key) + ("\"" + (":" + tail)));
  }

  /** Any key at all can be written in double quotes. */
  lemma QuotedKeyRoundTrip(key: string, gap: string, rest: string)
    requires IsGap(gap) && Unspaced(rest)
    ensures MappingKey(Quoted(key) + (":" + (gap + rest))) == Some(KeyRest(key, rest))
  {
    var q, tail := Quoted(key), gap + rest;
    var line := q + (":" + tail);
    GapIsBlank(gap, rest);
    QuotedKeyEnds(key, tail);
    assert line[..|q|] == q && line[|q|] == ':' && line[|q| + 1..] == tail;
    UnquoteQuoted(key);
    TrimLeftGap(gap, rest, IsBlank);
  }

  // ----- single quotes -----

  /** Every quote is written twice. */
  function Doubled(s: string): string {
    if s == "" then "" else (if s[0] == '\'' then "''" else [s[0]]) + Doubled(s[1..])
  }

  function SingleQuoted(s: string): string {
    "'" + Doubled(s) + "'"
  }

  lemma {:induction false} UndoubleDoubled(s: string)
    ensures Undouble(Doubled(s)) == s
  {
    if s != "" {
      UndoubleDoubled(s[1..]);
      var rest := Doubled(s[1..]);
      if s[0] == '\'' {
        assert ("''" + rest)[2..] == rest;
        assert Undouble("''" + rest) == "'" + Undouble(rest);
      } else if rest == "" {
        assert Doubled(s) == [s[0]];
        assert s[1..] == Undouble("") == "";
      } else {
        assert ([s[0]] + rest)[1..] == rest;
      }
    }
  }

  /** Any text at all reads back from single quotes, and from double quotes. */
  lemma QuotesReadBack(s: string)
    ensures Unquote(SingleQuoted(s)) == s && Unquote(Quoted(s)) == s
  {
    var q := SingleQuoted(s);
    assert q[1..|q| - 1] == Doubled(s);
    UndoubleDoubled(s);
    UnquoteQuoted(s);
  }

  lemma {:induction false} SingleQuoteEnd(s: string, i: nat, after: string)
    requires '\'' !in s && i <= |s|
    ensures QuoteEnd("'" + (s + ("'" + after)), '\'', 1 + i) == Some(1 + |s|)
    decreases |s| - i
  {
    var line := "'" + (s + ("'" + after));
    if i < |s| {
      assert line[1 + i] == s[i] && s[i] in s;
      SingleQuoteEnd(s, i + 1, after);
    } else {
      assert line[1 + |s|] == '\'';
    }
  }

  lemma {:induction false} DoubledPlain(s: string)
    requires '\'' !in s
    ensures Doubled(s) == s
  {
    if s != "" {
      assert s[0] in s && forall c :: c in s[1..] ==> c in s;
      DoubledPlain(s[1..]);
    }
  }

  /** Where the scan for the closing quote stops: at the first quote of the key, if it has one. */
  lemma {:induction false} FirstQuoteFound(s: string, k: nat, i: nat, after: string)
    requires k < |s| && s[k] == '\'' && (forall j :: 0 <= j < k ==> s[j] != '\'') && i <= k
    ensures |Doubled(s)| >= k + 2 && Doubled(s)[..k + 2] == s[..k] + "''"
    ensures QuoteEnd("'" + (Doubled(s) + ("'" + after)), '\'', 1 + i) == Some(1 + k)
    decreases k - i
  {
    DoubledUpTo(s, k);
    var line := "'" + (Doubled(s) + ("'" + after));
    assert line[1..][..k + 2] == Doubled(s)[..k + 2];
    assert line[1 + i] == line[1..][..k + 2][i] && line[1 + k] == line[1..][..k + 2][k];
    if i < k {
      FirstQuoteFound(s, k, i + 1, after);
    }
  }

  lemma {:induction false} DoubledUpTo(s: string, k: nat)
    requires k < |s| && s[k] == '\'' && forall j :: 0 <= j < k ==> s[j] != '\''
    ensures |Doubled(s)| >= k + 2 && Doubled(s)[..k + 2] == s[..k] + "''"
  {
    if k == 0 {
      assert Doubled(s) == "''" + Doubled(s[1..]);
    } else {
      DoubledUpTo(s[1..], k - 1);
      assert Doubled(s) == [s[0]] + Doubled(s[1..]);
      assert s[1..][..k - 1] == s[1..k];
    }
  }

  lemma {:induction false} FirstOf(s: string, c: char) returns (k: nat)
    requires c in s
    ensures k < |s| && s[k] == c && forall j :: 0 <= j < k ==> s[j] != c
  {
    k := 0;
    if s[0] != c {
      var i := FirstOf(s[1..], c);
      k := 1 + i;
      assert forall j :: 1 <= j < k ==> s[j] == s[1..][j - 1];
    }
  }

  /** A key in single quotes reads back if and only if it has no quote in it: a doubled quote ends the key, and
      what follows is no colon. */
  lemma SingleQuotedKeyReads(key: string, gap: string, rest: string)
    requires IsGap(gap) && Unspaced(rest)
    ensures MappingKey(SingleQuoted(key) + (":" + (gap + rest)))
         == if '\'' in key then None else Some(KeyRest(key, rest))
  {
    hide QuoteEnd, Unquote;
    GapIsBlank(gap, rest);
    if '\'' in key {
      QuoteInKey(key, gap + rest);
    } else {
      NoQuoteInKey(key, gap + rest);
      TrimLeftGap(gap, rest, IsBlank);
    }
  }

  lemma QuoteInKey(key: string, tail: string)
    requires '\'' in key
    ensures MappingKey(SingleQuoted(key) + (":" + tail)) == None
  {
    hide QuoteEnd, Unquote, Doubled;
    var line := "'" + (Doubled(key) + ("'" + (":" + tail)));
    assert SingleQuoted(key) + (":" + tail) == line;
    var k := FirstOf(key, '\'');
    FirstQuoteFound(key, k, 0, ":" + tail);
    assert line[2 + k] == Doubled(key)[..k + 2][k + 1];
  }

  lemma NoQuoteInKey(key: string, tail: string)
    requires '\'' !in key
    ensures MappingKey(SingleQuoted(key) + (":" + tail)) == Some(KeyRest(key, TrimLeft(tail, IsBlank)))
  {
    hide QuoteEnd, Unquote, Doubled, TrimLeft;
    var q := SingleQuoted(key);
    DoubledPlain(key);
    assert q + (":" + tail) == "'" + (key + ("'" + (":" + tail)));
    SingleQuoteEnd(key, 0, ":" + tail);
    QuotesReadBack(key);
    KeyInQuotes(q, tail);
  }

  lemma KeyInQuotes(q: string, tail: string)
    requires |q| >= 2 && q[0] == '\'' && QuoteEnd(q + (":" + tail), '\'', 1) == Some(|q| - 1)
    ensures MappingKey(q + (":" + tail)) == Some(KeyRest(Unquote(q), TrimLeft(tail, IsBlank)))
  {
    hide QuoteEnd, Unquote, TrimLeft;
    var line := q + (":" + tail);
    assert line[..|q|] == q && line[|q|] == ':' && line[|q| + 1..] == tail;
  }
}
