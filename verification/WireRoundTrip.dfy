/** Encoding a message and parsing the line gives the message back. */
module WireRoundTrip {
  import opened Prelude
  import opened Message
  import opened WireSpec

  // ----- tag values -----

  lemma EscapeCharUnescapes(c: char, rest: string)
    ensures Unescape(EscapeChar(c) + rest) == [c] + Unescape(rest)
  {
    var e := EscapeChar(c);
    if |e| == 2 {
      assert (e + rest)[2..] == rest;
    } else {
      assert (e + rest)[1..] == rest;
    }
  }

  lemma {:induction false} UnescapeEscape(v: string)
    ensures Unescape(Escape(v)) == v
  {
    if v != "" {
      EscapeCharUnescapes(v[0], Escape(v[1..]));
      UnescapeEscape(v[1..]);
    }
  }

  /** Escaped text cannot be mistaken for a delimiter of the tag section or the end of the line. */
  lemma {:induction false} EscapeIsSafe(v: string)
    ensures forall c :: c in Escape(v) ==> c != ';' && c != ' ' && c != '\r' && c != '\n'
    ensures v != "" ==> Escape(v) != ""
  {
    if v != "" {
      EscapeIsSafe(v[1..]);
    }
  }

  // ----- words -----

  lemma FirstWord(a: string, rest: string)
    requires ' ' !in a
    ensures BeforeSpace(a + (" " + rest)) == a && AfterSpace(a + (" " + rest)) == TrimLeft(rest, IsSpaceChar)
    ensures ' ' in a + (" " + rest)
  {
    var s := a + (" " + rest);
    assert s == a + [' '] + rest;
    IndexOfSplit(a, ' ', rest);
    assert s[..|a|] == a && s[|a| + 1..] == rest && s[|a|] == ' ';
  }

  /** A marked word, a space and more text: how tags and prefixes are written. */
  lemma MarkedWord(mark: string, a: string, rest: string)
    requires |mark| == 1 && mark[0] != ' ' && ' ' !in a && rest != "" && rest[0] != ' '
    ensures var s := mark + (a + (" " + rest));
            s[0] == mark[0] && ' ' in s && BeforeSpace(s)[1..] == a && AfterSpace(s) == rest
  {
    FirstWord(mark + a, rest);
    assert mark + (a + (" " + rest)) == (mark + a) + (" " + rest);
    assert (mark + a)[1..] == a;
  }

  lemma OnlyWord(a: string)
    requires ' ' !in a
    ensures BeforeSpace(a) == a && AfterSpace(a) == ""
  {
    IndexOfAbsent(a, ' ');
  }

  // ----- parameters -----

  lemma {:induction false} ParamsBack(params: seq<string>, n: nat)
    requires params != [] && n + |params| <= MAX_PARAMS && ParamsOk(params)
    ensures ParamText(params) != "" && ParamText(params)[0] != ' '
    ensures ParseParams(ParamText(params), n) == params
    decreases |params|
  {
    if |params| == 1 {
      assert ParamText(params)[1..] == params[0];
    } else {
      var rest := ParamText(params[1..]);
      assert MiddleOk(params[0]);
      assert ParamsOk(params[1..]) by {
        assert forall i :: 0 <= i < |params[1..]| ==> params[1..][i] == params[i + 1];
      }
      ParamsBack(params[1..], n + 1);
      FirstWord(params[0], rest);
      assert TrimLeft(rest, IsSpaceChar) == rest;
      assert params[0][0] in params[0];
    }
  }

  // ----- the tag section -----

  predicate KeyOk(k: string) {
    k != "" && ' ' !in k && ';' !in k && '=' !in k
  }

  lemma TagTextBack(k: string, v: string)
    requires KeyOk(k)
    ensures TagKey(TagText(k, v)) == k && TagValue(TagText(k, v)) == v
    ensures ';' !in TagText(k, v) && ' ' !in TagText(k, v)
  {
    hide Unescape, Escape;
    EscapeIsSafe(v);
    UnescapeEscape(v);
    if v == "" {
      IndexOfAbsent(k, '=');
      assert TagText(k, v) == k;
    } else {
      ValuedTagBack(k, Escape(v));
    }
  }

  lemma ValuedTagBack(k: string, escaped: string)
    requires KeyOk(k)
    ensures TagKey(k + ("=" + escaped)) == k && TagValue(k + ("=" + escaped)) == Unescape(escaped)
  {
    hide Unescape;
    var t := k + ("=" + escaped);
    assert t == k + ['='] + escaped;
    IndexOfSplit(k, '=', escaped);
    assert t[..|k|] == k && t[|k| + 1..] == escaped;
  }

  /** The tag texts that a tag section is made of. */
  function TagTexts(tags: map<string, string>, keys: seq<string>): (r: seq<string>)
    requires forall k :: k in keys ==> k in tags
    ensures |r| == |keys| && forall i :: 0 <= i < |keys| ==> r[i] == TagText(keys[i], tags[keys[i]])
  {
    seq(|keys|, i requires 0 <= i < |keys| => TagText(keys[i], tags[keys[i]]))
  }

  lemma SplitFirst(a: string, rest: string)
    requires ';' !in a
    ensures SplitTags(a + (";" + rest)) == [a] + SplitTags(rest)
  {
    var s := a + (";" + rest);
    assert s == a + [';'] + rest;
    IndexOfSplit(a, ';', rest);
    assert s[..|a|] == a && s[|a| + 1..] == rest;
  }

  /** The tag section as a function of its texts. */
  function Joined(texts: seq<string>): string {
    if texts == [] then "" else if |texts| == 1 then texts[0] else texts[0] + (";" + Joined(texts[1..]))
  }

  lemma {:induction false} JoinIsJoined(tags: map<string, string>, keys: seq<string>)
    requires forall k :: k in keys ==> k in tags
    ensures JoinTags(tags, keys) == Joined(TagTexts(tags, keys))
    decreases |keys|
  {
    if |keys| > 1 {
      JoinIsJoined(tags, keys[1..]);
      assert TagTexts(tags, keys)[1..] == TagTexts(tags, keys[1..]);
    }
  }

  ghost predicate Without(texts: seq<string>, c: char) {
    forall i :: 0 <= i < |texts| ==> c !in texts[i]
  }

  lemma {:induction false} SplitJoined(texts: seq<string>)
    requires texts != [] && Without(texts, ';')
    ensures SplitTags(Joined(texts)) == texts
    decreases |texts|
  {
    if |texts| == 1 {
      IndexOfAbsent(texts[0], ';');
      assert SplitTags(texts[0]) == [texts[0]];
    } else {
      var rest := texts[1..];
      SplitJoined(rest);
      SplitFirst(texts[0], Joined(rest));
      assert texts == [texts[0]] + rest;
    }
  }

  lemma {:induction false} JoinedWithout(texts: seq<string>, c: char)
    requires c != ';' && Without(texts, c)
    ensures c !in Joined(texts)
    decreases |texts|
  {
    if |texts| > 1 {
      JoinedWithout(texts[1..], c);
    }
  }

  /** `texts` spell the tags `keys` with their values in `tags`. */
  ghost predicate Spells(texts: seq<string>, tags: map<string, string>, keys: seq<string>) {
    && |texts| == |keys|
    && forall i :: 0 <= i < |keys| ==>
       keys[i] in tags && TagKey(texts[i]) == keys[i] && TagValue(texts[i]) == tags[keys[i]]
  }

  lemma SpellsFewer(texts: seq<string>, tags: map<string, string>, keys: seq<string>, n: nat)
    requires Spells(texts, tags, keys) && n <= |keys|
    ensures Spells(texts[..n], tags, keys[..n])
  {
  }

  lemma {:induction false} SpelledAt(texts: seq<string>, tags: map<string, string>, keys: seq<string>, k: string)
    requires Spells(texts, tags, keys)
    ensures k in TagMap(texts) <==> k in keys
    ensures k in keys ==> k in tags && TagMap(texts)[k] == tags[k]
    decreases |keys|
  {
    if keys != [] {
      var n := |keys| - 1;
      SpellsFewer(texts, tags, keys, n);
      SpelledAt(texts[..n], tags, keys[..n], k);
      assert TagMap(texts) == TagMap(texts[..n])[keys[n] := tags[keys[n]]];
      assert keys == keys[..n] + [keys[n]];
    }
  }

  lemma SpelledIsMap(texts: seq<string>, tags: map<string, string>, keys: seq<string>)
    requires Spells(texts, tags, keys) && Enumerates(keys, tags.Keys)
    ensures TagMap(texts) == tags
  {
    forall k: string ensures (k in TagMap(texts) <==> k in tags) && (k in tags ==> TagMap(texts)[k] == tags[k]) {
      SpelledAt(texts, tags, keys, k);
    }
  }

  lemma TextsSpell(tags: map<string, string>, keys: seq<string>)
    requires forall k :: k in keys ==> k in tags && KeyOk(k)
    ensures Spells(TagTexts(tags, keys), tags, keys)
    ensures Without(TagTexts(tags, keys), ';') && Without(TagTexts(tags, keys), ' ')
  {
    forall i | 0 <= i < |keys|
      ensures var t := TagTexts(tags, keys)[i];
              ';' !in t && ' ' !in t && TagKey(t) == keys[i] && TagValue(t) == tags[keys[i]]
    {
      TagTextBack(keys[i], tags[keys[i]]);
    }
  }

  lemma SpelledParses(texts: seq<string>, tags: map<string, string>, keys: seq<string>)
    requires Spells(texts, tags, keys) && Enumerates(keys, tags.Keys) && texts != []
    requires forall k :: k in tags ==> KeyOk(k)
    requires Without(texts, ';') && Without(texts, ' ')
    ensures ParseTags(Joined(texts)) == Ok(tags) && ' ' !in Joined(texts)
  {
    SplitJoined(texts);
    JoinedWithout(texts, ' ');
    SpelledIsMap(texts, tags, keys);
    assert forall i :: 0 <= i < |texts| ==> keys[i] in tags && TagKey(texts[i]) != "";
  }

  lemma TagsBack(tags: map<string, string>, keys: seq<string>)
    requires Enumerates(keys, tags.Keys) && tags != map[] && forall k :: k in tags ==> KeyOk(k)
    ensures ParseTags(JoinTags(tags, keys)) == Ok(tags)
    ensures ' ' !in JoinTags(tags, keys)
  {
    var k0 :| k0 in tags.Keys;
    assert k0 in keys;
    TextsSpell(tags, keys);
    JoinIsJoined(tags, keys);
    SpelledParses(TagTexts(tags, keys), tags, keys);
  }

  // ----- the whole line -----

  /** What a message must be like for its encoding to be unambiguous. */
  ghost predicate WellFormed(m: Message) {
    && Upper(m.command) == m.command
    && ' ' !in m.prefix
    && forall k :: k in m.tags ==> KeyOk(k)
  }

  lemma CommandHasNoSpace(s: string)
    requires ValidCommand(s)
    ensures ' ' !in s && ':' !in s && '@' !in s && s != ""
  {
    if IsAllDigits(s) {
      assert forall i :: 0 <= i < |s| ==> IsDigit(s[i]);
    }
  }

  lemma CommandBack(m: Message)
    requires ValidCommand(m.command) && |m.params| <= MAX_PARAMS && ParamsOk(m.params) && Upper(m.command) == m.command
    ensures ParseCommand(m.tags, m.prefix, CommandText(m)) == Ok(m)
    ensures CommandText(m) != "" && CommandText(m)[0] !in {' ', ':', '@'}
  {
    CommandHasNoSpace(m.command);
    assert m.command[0] in m.command;
    if m.params == [] {
      assert CommandText(m) == m.command;
      OnlyWord(m.command);
    } else {
      ParamsBack(m.params, 0);
      FirstWord(m.command, ParamText(m.params));
    }
  }

  lemma PrefixBack(m: Message)
    requires ValidCommand(m.command) && |m.params| <= MAX_PARAMS && ParamsOk(m.params) && WellFormed(m)
    ensures PrefixText(m) != "" && PrefixText(m)[0] !in {' ', '@'}
    ensures ParsePrefix(m.tags, PrefixText(m)) == Ok(m)
  {
    CommandBack(m);
    if m.prefix != "" {
      MarkedWord(":", m.prefix, CommandText(m));
    }
  }

  lemma TextBack(m: Message, keys: seq<string>)
    requires ValidCommand(m.command) && |m.params| <= MAX_PARAMS && ParamsOk(m.params) && WellFormed(m)
    requires Enumerates(keys, m.tags.Keys)
    ensures ParseText(Text(m, keys)) == Ok(m)
  {
    PrefixBack(m);
    if m.tags != map[] {
      TagsBack(m.tags, keys);
      MarkedWord("@", JoinTags(m.tags, keys), PrefixText(m));
    }
  }

  lemma StripsTerminator(text: string)
    ensures Stripped(text + "\r\n") == text
  {
    assert (text + "\r\n")[..|text| + 1] == text + "\r";
  }

  /** Whenever encoding succeeds, parsing the line gives exactly the message, whatever the tag order. */
  lemma RoundTrip(m: Message, keys: seq<string>)
    requires WellFormed(m) && Enumerates(keys, m.tags.Keys)
    ensures EncodeIn(m, keys).Ok? ==> ParseLine(EncodeIn(m, keys).value) == Ok(m)
  {
    if EncodeIn(m, keys).Ok? {
      TextBack(m, keys);
      StripsTerminator(Text(m, keys));
    }
  }
}
