/** Re-encoding a parsed line: the result is at most three bytes longer than the line without its
    terminator, and parsing it again gives the same message. */
module WireStable {
  import opened Prelude
  import opened Message
  import opened WireSpec
  import opened WireRoundTrip

  /** No CR, LF or NUL anywhere. */
  predicate AllClean(s: string) {
    forall i :: 0 <= i < |s| ==> Clean(s[i])
  }

  // ----- words of a line -----

  lemma {:induction false} TrimLeftClean(s: string)
    requires AllClean(s)
    ensures AllClean(TrimLeft(s, IsSpaceChar))
  {
    if s != "" && s[0] == ' ' {
      TrimLeftClean(s[1..]);
    }
  }

  /** A word and the text after it, with the space between them, fit in the line they come from. */
  lemma WordsFit(s: string)
    requires ' ' in s
    ensures |BeforeSpace(s)| + 1 + |AfterSpace(s)| <= |s|
    ensures ' ' !in BeforeSpace(s)
    ensures s[0] != ' ' ==> BeforeSpace(s) != "" && BeforeSpace(s)[0] == s[0]
    ensures AllClean(s) ==> AllClean(BeforeSpace(s)) && AllClean(AfterSpace(s))
  {
    var i := IndexOf(s, ' ');
    if AllClean(s) {
      TrimLeftClean(s[i + 1..]);
    }
  }

  // ----- parameters -----

  lemma LastParam(t: string)
    requires AllClean(t)
    ensures ParamsOk([t]) && |ParamText([t])| == |t| + 1
  {
  }

  lemma FirstParam(w: string, rest: seq<string>)
    requires MiddleOk(w) && ParamsOk(rest)
    ensures ParamsOk([w] + rest)
    ensures |ParamText([w] + rest)| == |w| + 1 + |ParamText(rest)|
  {
    var all := [w] + rest;
    forall i | 0 <= i < |all| ensures if i == |all| - 1 then TrailingOk(all[i]) else MiddleOk(all[i]) {
      if i > 0 {
        assert all[i] == rest[i - 1];
      }
    }
    assert all[1..] == rest;
  }

  lemma {:induction false} ParamsShape(s: string, n: nat)
    requires AllClean(s) && n <= MAX_PARAMS - 1 && (s != "" ==> s[0] != ' ')
    ensures var ps := ParseParams(s, n);
            && n + |ps| <= MAX_PARAMS && ParamsOk(ps)
            && |ParamText(ps)| <= |s| + 1 && (s == "" ==> ps == [])
    decreases |s|
  {
    if s == "" {
    } else if s[0] == ':' {
      LastParam(s[1..]);
    } else if n < MAX_PARAMS - 1 && ' ' in s {
      WordsFit(s);
      ParamsShape(AfterSpace(s), n + 1);
      FirstParam(BeforeSpace(s), ParseParams(AfterSpace(s), n + 1));
    } else {
      LastParam(s);
    }
  }

  // ----- tag values get no longer -----

  lemma {:induction false} EscapeNoLonger(raw: string)
    requires forall i :: 0 <= i < |raw| ==> raw[i] != ';' && raw[i] != ' ' && Clean(raw[i])
    ensures |Escape(Unescape(raw))| <= |raw|
    decreases |raw|
  {
    if raw != "" {
      if raw[0] != '\\' {
        EscapeNoLonger(raw[1..]);
        assert Unescape(raw)[1..] == Unescape(raw[1..]);
      } else if |raw| > 1 {
        EscapeNoLonger(raw[2..]);
        assert Unescape(raw)[1..] == Unescape(raw[2..]);
      }
    }
  }

  /** A tag as it stands in a line: no delimiters, and nothing that ends the line. */
  predicate TagClean(tag: string) {
    forall i :: 0 <= i < |tag| ==> tag[i] != ';' && tag[i] != ' ' && Clean(tag[i])
  }

  lemma TagNoLonger(tag: string)
    requires TagClean(tag)
    ensures |TagText(TagKey(tag), TagValue(tag))| <= |tag|
    ensures TagKey(tag) != "" ==> KeyOk(TagKey(tag))
  {
    var i := IndexOf(tag, '=');
    if i < |tag| {
      EscapeNoLonger(tag[i + 1..]);
    }
    assert forall c :: c in TagKey(tag) ==> c in tag;
  }

  // ----- the tag section gets no longer -----

  /** The length of all texts with one separator each. */
  function Total(texts: seq<string>): nat {
    if texts == [] then 0 else Total(texts[..|texts| - 1]) + |texts[|texts| - 1]| + 1
  }

  lemma {:induction false} TotalConcat(a: seq<string>, b: seq<string>)
    ensures Total(a + b) == Total(a) + Total(b)
    decreases |b|
  {
    if b == [] {
      assert a + b == a;
    } else {
      var n := |b| - 1;
      assert (a + b)[..|a| + n] == a + b[..n];
      TotalConcat(a, b[..n]);
    }
  }

  lemma {:induction false} JoinedLength(texts: seq<string>)
    requires texts != []
    ensures |Joined(texts)| == Total(texts) - 1
    decreases |texts|
  {
    assert [texts[0]][..0] == [];
    if |texts| > 1 {
      JoinedLength(texts[1..]);
      TotalConcat([texts[0]], texts[1..]);
      assert texts == [texts[0]] + texts[1..];
    } else {
      assert texts[..0] == [];
    }
  }

  lemma {:induction false} SplitLength(body: string)
    ensures |body| == Total(SplitTags(body)) - 1
    ensures ' ' !in body && AllClean(body) ==> forall i :: 0 <= i < |SplitTags(body)| ==> TagClean(SplitTags(body)[i])
    decreases |body|
  {
    var i := IndexOf(body, ';');
    if i < |body| {
      SplitLength(body[i + 1..]);
      TotalConcat([body[..i]], SplitTags(body[i + 1..]));
      assert [body[..i]][..0] == [];
      assert forall k :: 0 <= k < i ==> body[k] in body[..i];
    } else {
      assert [body][..0] == [];
    }
  }

  lemma DropOne(texts: seq<string>, j: nat)
    requires j < |texts|
    ensures Total(texts) == Total(texts[..j] + texts[j + 1..]) + |texts[j]| + 1
  {
    assert texts == texts[..j] + ([texts[j]] + texts[j + 1..]);
    TotalConcat(texts[..j], [texts[j]] + texts[j + 1..]);
    TotalConcat([texts[j]], texts[j + 1..]);
    TotalConcat(texts[..j], texts[j + 1..]);
    assert [texts[j]][..0] == [];
  }

  function Without(keys: seq<string>, j: nat): (r: seq<string>)
    requires j < |keys|
    ensures |r| == |keys| - 1 && forall i :: 0 <= i < |r| ==> r[i] == keys[if i < j then i else i + 1]
  {
    keys[..j] + keys[j + 1..]
  }

  ghost predicate DistinctIn(keys: seq<string>, m: map<string, string>) {
    NoDups(keys) && forall k :: k in keys ==> k in m
  }

  lemma WithoutDistinct(m: map<string, string>, before: map<string, string>, keys: seq<string>, j: nat, v: string)
    requires j < |keys| && DistinctIn(keys, m) && m == before[keys[j] := v]
    ensures DistinctIn(Without(keys, j), before)
  {
    var others := Without(keys, j);
    forall k | k in others ensures k in before {
      var i :| 0 <= i < |others| && others[i] == k;
      var at := if i < j then i else i + 1;
      assert k == keys[at] && keys[at] in keys && (at < j || j < at);
    }
  }

  /** The texts of the other keys do not depend on the key taken out. */
  lemma OtherTexts(m: map<string, string>, before: map<string, string>, keys: seq<string>, j: nat, v: string)
    requires j < |keys| && DistinctIn(keys, m) && m == before[keys[j] := v] && DistinctIn(Without(keys, j), before)
    ensures TagTexts(m, keys)[..j] + TagTexts(m, keys)[j + 1..] == TagTexts(before, Without(keys, j))
  {
    var others := Without(keys, j);
    var a, b := TagTexts(m, keys)[..j] + TagTexts(m, keys)[j + 1..], TagTexts(before, others);
    forall i | 0 <= i < |others| ensures a[i] == b[i] {
      var at := if i < j then i else i + 1;
      assert a[i] == TagText(keys[at], m[keys[at]]);
      assert others[i] == keys[at] && keys[at] != keys[j];
    }
  }

  /** Taking out the key that the last tag sets. */
  lemma TakeOut(m: map<string, string>, before: map<string, string>, keys: seq<string>, j: nat, v: string)
    requires j < |keys| && DistinctIn(keys, m) && m == before[keys[j] := v]
    ensures DistinctIn(Without(keys, j), before)
    ensures Total(TagTexts(m, keys)) == Total(TagTexts(before, Without(keys, j))) + |TagText(keys[j], v)| + 1
  {
    WithoutDistinct(m, before, keys, j, v);
    OtherTexts(m, before, keys, j, v);
    DropOne(TagTexts(m, keys), j);
  }

  lemma NothingToTakeOut(m: map<string, string>, before: map<string, string>, keys: seq<string>, key: string, v: string)
    requires DistinctIn(keys, m) && m == before[key := v] && key !in keys
    ensures DistinctIn(keys, before) && TagTexts(m, keys) == TagTexts(before, keys)
  {
  }

  predicate AllTagClean(tags: seq<string>) {
    forall i :: 0 <= i < |tags| ==> TagClean(tags[i])
  }

  /** The texts of distinct keys are no longer than the tags they came from: each key's value was set by
      a tag of its own. */
  lemma {:induction false} TextsNoLonger(tags: seq<string>, keys: seq<string>)
    requires DistinctIn(keys, TagMap(tags)) && AllTagClean(tags)
    ensures Total(TagTexts(TagMap(tags), keys)) <= Total(tags)
    decreases |tags|
  {
    if tags == [] {
      SomeElement(keys);
    } else {
      var n := |tags| - 1;
      var before, t := TagMap(tags[..n]), tags[n];
      assert AllTagClean(tags[..n]) && TagClean(t);
      TagNoLonger(t);
      if TagKey(t) in keys {
        var j :| 0 <= j < |keys| && keys[j] == TagKey(t);
        TakeOut(TagMap(tags), before, keys, j, TagValue(t));
        TextsNoLonger(tags[..n], Without(keys, j));
      } else {
        NothingToTakeOut(TagMap(tags), before, keys, TagKey(t), TagValue(t));
        TextsNoLonger(tags[..n], keys);
      }
    }
  }

  lemma {:induction false} KeysFromTags(tags: seq<string>, k: string)
    requires k in TagMap(tags)
    ensures exists i :: 0 <= i < |tags| && TagKey(tags[i]) == k
    decreases |tags|
  {
    var n := |tags| - 1;
    if k != TagKey(tags[n]) {
      KeysFromTags(tags[..n], k);
      var i :| 0 <= i < n && TagKey(tags[..n][i]) == k;
      assert TagKey(tags[i]) == k;
    }
  }

  /** The tag section of a line, re-encoded. */
  lemma SectionNoLonger(body: string, keys: seq<string>)
    requires ' ' !in body && AllClean(body) && ParseTags(body).Ok?
    requires Enumerates(keys, ParseTags(body).value.Keys)
    ensures |JoinTags(ParseTags(body).value, keys)| <= |body|
    ensures forall k :: k in ParseTags(body).value ==> KeyOk(k)
  {
    var tags := SplitTags(body);
    var m := ParseTags(body).value;
    SplitLength(body);
    TextsNoLonger(tags, keys);
    JoinIsJoined(m, keys);
    if keys != [] {
      JoinedLength(TagTexts(m, keys));
    }
    forall k | k in m ensures KeyOk(k) {
      KeysFromTags(tags, k);
      var i :| 0 <= i < |tags| && TagKey(tags[i]) == k;
      TagNoLonger(tags[i]);
    }
  }

  // ----- the whole line -----

  lemma UpperTwice(s: string)
    ensures Upper(Upper(s)) == Upper(s)
    ensures ValidCommand(s) ==> ValidCommand(Upper(s))
  {
    var u := Upper(s);
    assert forall i :: 0 <= i < |s| ==> u[i] == UpperChar(s[i]);
    if ValidCommand(s) {
      if IsAllDigits(s) {
        assert u == s;
      } else {
        assert forall i :: 0 <= i < |s| ==> IsLetter(u[i]);
        assert IsLetter(u[0]);
      }
    }
  }

  /** What is true of a message parsed from `s`: it can be encoded, and its text is at most one longer. */
  ghost predicate Refits(m: Message, text: string, s: string) {
    && ValidCommand(m.command) && |m.params| <= MAX_PARAMS && ParamsOk(m.params) && Upper(m.command) == m.command
    && |text| <= |s| + 1
  }

  lemma CommandRefits(tags: map<string, string>, prefix: string, s: string)
    requires AllClean(s) && s != "" && s[0] != ' ' && ParseCommand(tags, prefix, s).Ok?
    ensures var m := ParseCommand(tags, prefix, s).value;
            Refits(m, CommandText(m), s) && m.tags == tags && m.prefix == prefix
  {
    UpperTwice(BeforeSpace(s));
    if ' ' in s {
      WordsFit(s);
    } else {
      IndexOfAbsent(s, ' ');
    }
    ParamsShape(AfterSpace(s), 0);
  }

  lemma PrefixRefits(tags: map<string, string>, s: string)
    requires AllClean(s) && s != "" && s[0] != ' ' && ParsePrefix(tags, s).Ok?
    ensures var m := ParsePrefix(tags, s).value;
            Refits(m, PrefixText(m), s) && m.tags == tags && ' ' !in m.prefix
  {
    if s[0] != ':' {
      CommandRefits(tags, "", s);
    } else {
      WordsFit(s);
      var word := BeforeSpace(s);
      assert forall c :: c in word[1..] ==> c in word;
      CommandRefits(tags, word[1..], AfterSpace(s));
    }
  }

  lemma TextRefits(s: string, keys: seq<string>)
    requires AllClean(s) && ParseText(s).Ok? && Enumerates(keys, ParseText(s).value.tags.Keys)
             && (s != "" ==> s[0] != ' ')
    ensures var m := ParseText(s).value;
            Refits(m, Text(m, keys), s) && WellFormed(m)
  {
    if s[0] != '@' {
      PrefixRefits(map[], s);
    } else {
      WordsFit(s);
      var word := BeforeSpace(s);
      assert forall c :: c in word[1..] ==> c in word;
      SectionNoLonger(word[1..], keys);
      PrefixRefits(ParseTags(word[1..]).value, AfterSpace(s));
    }
  }

  /** A line that starts with a space has no command. */
  lemma LeadingSpaceFails(s: string)
    requires s != "" && s[0] == ' '
    ensures ParseText(s).Err?
  {
    assert BeforeSpace(s) == "";
  }

  /** For every line that parses and has no CR, LF or NUL before its terminator: encoding the message
      can fail only for length; it needs at most three bytes more than the line without terminator, so a
      line of at most 509 bytes always encodes; and parsing the encoded line gives the same message. */
  lemma ReencodingIsStable(line: string, keys: seq<string>)
    requires ParseLine(line).Ok? && AllClean(Stripped(line)) && Enumerates(keys, ParseLine(line).value.tags.Keys)
    ensures var m, out := ParseLine(line).value, EncodeIn(ParseLine(line).value, keys);
            && |m.params| <= MAX_PARAMS
            && |Text(m, keys) + "\r\n"| <= |Stripped(line)| + 3
            && (out.Ok? ==> out.value == Text(m, keys) + "\r\n" && ParseLine(out.value) == Ok(m))
            && (out.Err? ==> out.error == ErrTooLong && |Stripped(line)| > 509)
  {
    var s := Stripped(line);
    if s != "" && s[0] == ' ' {
      LeadingSpaceFails(s);
    }
    TextRefits(s, keys);
    RoundTrip(ParseLine(line).value, keys);
  }

  /** Parsing never yields more than fifteen parameters, whatever the line holds. */
  lemma {:induction false} AtMostFifteen(s: string, n: nat)
    requires n <= MAX_PARAMS - 1
    ensures n + |ParseParams(s, n)| <= MAX_PARAMS
    decreases |s|
  {
    if s != "" && s[0] != ':' && n < MAX_PARAMS - 1 && ' ' in s {
      AtMostFifteen(AfterSpace(s), n + 1);
    }
  }
}
