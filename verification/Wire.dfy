/** The parser and the encoder as the daemon runs them, proved to compute what WireSpec says. */
module Wire {
  import opened Prelude
  import opened Message
  import opened WireSpec
  import opened WireStable
  import opened KeyOrder

  // ----- tag values -----

  /** What the unescaping of the rest of a value comes to at position i. */
  lemma UnescapeAt(s: string, i: nat)
    requires i <= |s|
    ensures i == |s| ==> Unescape(s[i..]) == ""
    ensures i < |s| && s[i] != '\\' ==> Unescape(s[i..]) == [s[i]] + Unescape(s[i + 1..])
    ensures i + 1 == |s| && s[i] == '\\' ==> Unescape(s[i..]) == ""
    ensures i + 1 < |s| && s[i] == '\\' ==> Unescape(s[i..]) == [UnescapeChar(s[i + 1])] + Unescape(s[i + 2..])
  {
    assert i < |s| ==> s[i..][1..] == s[i + 1..];
    assert i + 1 < |s| ==> s[i..][2..] == s[i + 2..];
  }

  method UnescapeTagValue(s: string) returns (r: string)
    ensures r == Unescape(s)
  {
    hide Unescape;
    if '\\' !in s {
      NothingToUnescape(s);
      return s;
    }
    r := "";
    var i := 0;
    assert s[0..] == s;
    while i < |s|
      invariant 0 <= i <= |s|
      invariant r + Unescape(s[i..]) == Unescape(s)
    {
      UnescapeAt(s, i);
      if s[i] != '\\' {
        r := r + [s[i]];
        i := i + 1;
        continue;
      }
      i := i + 1;
      if i >= |s| {
        break;
      }
      r := r + [UnescapeChar(s[i])];
      i := i + 1;
    }
    UnescapeAt(s, |s|);
  }

  lemma {:induction false} NothingToUnescape(s: string)
    requires '\\' !in s
    ensures Unescape(s) == s
  {
    if s != "" {
      assert s[0] in s;
      NothingToUnescape(s[1..]);
    }
  }

  lemma EscapeAt(s: string, i: nat)
    requires i <= |s|
    ensures Escape(s[i..]) == if i == |s| then "" else EscapeChar(s[i]) + Escape(s[i + 1..])
  {
    assert i < |s| ==> s[i..][1..] == s[i + 1..];
  }

  method EscapeTagValue(s: string) returns (r: string)
    ensures r == Escape(s)
  {
    if ';' !in s && ' ' !in s && '\\' !in s && '\r' !in s && '\n' !in s {
      NothingToEscape(s);
      return s;
    }
    r := Escaped(s);
  }

  method Escaped(s: string) returns (r: string)
    ensures r == Escape(s)
  {
    hide Escape, EscapeChar;
    r := "";
    assert s[0..] == s;
    for i := 0 to |s|
      invariant r + Escape(s[i..]) == Escape(s)
    {
      EscapeAt(s, i);
      Assoc(r, EscapeChar(s[i]), Escape(s[i + 1..]));
      r := r + EscapeChar(s[i]);
    }
    EscapeAt(s, |s|);
  }

  lemma {:induction false} NothingToEscape(s: string)
    requires forall c :: c in s ==> EscapeChar(c) == [c]
    ensures Escape(s) == s
  {
    if s != "" {
      assert s[0] in s;
      NothingToEscape(s[1..]);
    }
  }

  // ----- parsing -----

  lemma NoTags()
    ensures TagMap([]) == map[] && ParseTags("") == Err(ErrBadTags)
  {
    assert SplitTags("") == [""] && TagKey("") == "";
  }

  lemma BadTag(tags: seq<string>, i: nat)
    requires i < |tags| && TagKey(tags[i]) == ""
    ensures !forall j :: 0 <= j < |tags| ==> TagKey(tags[j]) != ""
  {
  }

  lemma OneMoreTag(tags: seq<string>, i: nat)
    requires i < |tags|
    ensures TagMap(tags[..i + 1]) == TagMap(tags[..i])[TagKey(tags[i]) := TagValue(tags[i])]
  {
    assert tags[..i + 1][..i] == tags[..i];
  }

  /** One tag; nothing when its key is empty. */
  method ParseTag(tag: string) returns (r: Option<(string, string)>)
    ensures r == if TagKey(tag) == "" then None else Some((TagKey(tag), TagValue(tag)))
  {
    if tag == "" {
      return None;
    }
    var eq := IndexOf(tag, '=');
    var key, raw := tag[..eq], if eq < |tag| then tag[eq + 1..] else "";
    if key == "" {
      return None;
    }
    var value := UnescapeTagValue(raw);
    r := Some((key, value));
  }

  method ParseTagSection(body: string) returns (r: Result<map<string, string>>)
    ensures r == ParseTags(body)
  {
    hide TagMap, TagKey, TagValue, SplitTags;
    NoTags();
    if body == "" {
      return Err(ErrBadTags);
    }
    var tags := SplitTags(body);
    assert tags[..0] == [];
    var out := map[];
    for i := 0 to |tags|
      invariant out == TagMap(tags[..i])
      invariant forall k :: 0 <= k < i ==> TagKey(tags[k]) != ""
    {
      var tag := ParseTag(tags[i]);
      if tag.None? {
        BadTag(tags, i);
        return Err(ErrBadTags);
      }
      OneMoreTag(tags, i);
      out := out[tag.value.0 := tag.value.1];
    }
    assert tags[..|tags|] == tags;
    r := Ok(out);
  }

  /** What the parameters in `s` come to by how it starts. */
  lemma ParamsAt(s: string, n: nat)
    ensures s == "" ==> ParseParams(s, n) == []
    ensures s != "" && s[0] == ':' ==> ParseParams(s, n) == [s[1..]]
    ensures s != "" && s[0] != ':' && (n >= MAX_PARAMS - 1 || ' ' !in s) ==> ParseParams(s, n) == [s]
    ensures s != "" && s[0] != ':' && n < MAX_PARAMS - 1 && ' ' in s ==>
              ParseParams(s, n) == [BeforeSpace(s)] + ParseParams(AfterSpace(s), n + 1)
  {
  }

  method ParseParamList(rest: string) returns (params: seq<string>)
    ensures params == ParseParams(rest, 0)
  {
    hide ParseParams;
    var s := rest;
    params := [];
    while s != ""
      invariant |params| <= MAX_PARAMS - 1
      invariant params + ParseParams(s, |params|) == ParseParams(rest, 0)
      decreases |s|
    {
      ParamsAt(s, |params|);
      if s[0] == ':' {
        params := params + [s[1..]];
        return;
      }
      if |params| >= MAX_PARAMS - 1 {
        params := params + [s];
        return;
      }
      var sp := IndexOf(s, ' ');
      if sp == |s| {
        params := params + [s];
        return;
      }
      Assoc(params, [BeforeSpace(s)], ParseParams(AfterSpace(s), |params| + 1));
      params := params + [s[..sp]];
      s := TrimLeft(s[sp + 1..], IsSpaceChar);
    }
    ParamsAt(s, |params|);
  }

  method Parse(line: string) returns (r: Result<Message>)
    ensures r == ParseLine(line)
  {
    if |line| > MAX_MESSAGE_BYTES {
      return Err(ErrTooLong);
    }
    var s := Stripped(line);
    if s == "" {
      return Err(ErrEmpty);
    }
    var tags: map<string, string> := map[];
    if s[0] == '@' {
      var sp := IndexOf(s, ' ');
      if sp == |s| {
        return Err(ErrBadTags);
      }
      var t := ParseTagSection(s[1..sp]);
      assert s[..sp][1..] == s[1..sp];
      if t.Err? {
        return Err(t.error);
      }
      tags := t.value;
      s := TrimLeft(s[sp + 1..], IsSpaceChar);
      if s == "" {
        return Err(ErrEmpty);
      }
    }
    r := ParseFromPrefix(tags, s);
  }

  method ParseFromPrefix(tags: map<string, string>, text: string) returns (r: Result<Message>)
    requires text != ""
    ensures r == ParsePrefix(tags, text)
  {
    var s := text;
    var prefix := "";
    if s[0] == ':' {
      var sp := IndexOf(s, ' ');
      if sp == |s| {
        return Err(ErrEmpty);
      }
      prefix := s[1..sp];
      assert s[..sp][1..] == s[1..sp];
      s := TrimLeft(s[sp + 1..], IsSpaceChar);
      if s == "" {
        return Err(ErrEmpty);
      }
    }
    r := ParseFromCommand(tags, prefix, s);
  }

  method ParseFromCommand(tags: map<string, string>, prefix: string, s: string) returns (r: Result<Message>)
    ensures r == ParseCommand(tags, prefix, s)
  {
    var sp := IndexOf(s, ' ');
    var cmd, rest := s[..sp], if sp < |s| then TrimLeft(s[sp + 1..], IsSpaceChar) else "";
    if !ValidCommand(cmd) {
      return Err(ErrBadCommand);
    }
    var params := ParseParamList(rest);
    AtMostFifteen(rest, 0);
    if |params| > MAX_PARAMS {
      return Err(ErrTooManyParams);
    }
    DigitsHaveNoCase(cmd);
    r := Ok(Message(tags, prefix, if IsAllDigits(cmd) then cmd else Upper(cmd), params));
  }

  lemma DigitsHaveNoCase(s: string)
    ensures IsAllDigits(s) ==> Upper(s) == s
  {
  }

  // ----- encoding -----

  method AssertTrailing(p: string) returns (ok: bool)
    ensures ok == TrailingOk(p)
  {
    for i := 0 to |p|
      invariant forall k :: 0 <= k < i ==> Clean(p[k])
    {
      if p[i] == '\r' || p[i] == '\n' || p[i] == '\0' {
        return false;
      }
    }
    ok := true;
  }

  method AssertMiddle(p: string) returns (ok: bool)
    ensures ok == MiddleOk(p)
  {
    if p == "" || p[0] == ':' {
      return false;
    }
    for i := 0 to |p|
      invariant forall k :: 0 <= k < i ==> Clean(p[k]) && p[k] != ' '
    {
      if p[i] == ' ' || p[i] == '\r' || p[i] == '\n' || p[i] == '\0' {
        return false;
      }
    }
    ok := true;
  }

  /** What is still to be written once some tags are out. */
  function TagsLeft(tags: map<string, string>, keys: seq<string>): string
    requires forall k :: k in keys ==> k in tags
  {
    if keys == [] then "" else ";" + JoinTags(tags, keys)
  }

  method WriteTag(k: string, v: string) returns (text: string)
    ensures text == TagText(k, v)
  {
    text := k;
    if v != "" {
      var e := EscapeTagValue(v);
      text := text + "=";
      text := text + e;
      Assoc(k, "=", e);
    }
  }

  /** The tag section from tag i on, with the separator in front of it. */
  function TagsFrom(tags: map<string, string>, keys: seq<string>, i: nat): string
    requires i <= |keys| && forall k :: k in keys ==> k in tags
  {
    if i == 0 then JoinTags(tags, keys) else TagsLeft(tags, keys[i..])
  }

  lemma OneTag(tags: map<string, string>, keys: seq<string>, i: nat)
    requires i < |keys| && forall k :: k in keys ==> k in tags
    ensures TagsFrom(tags, keys, i)
         == (if i == 0 then "" else ";") + (TagText(keys[i], tags[keys[i]]) + TagsFrom(tags, keys, i + 1))
  {
    assert keys[i..][1..] == keys[i + 1..] && keys[0..] == keys;
    TagsStep(tags, keys[i..]);
    assert "" + JoinTags(tags, keys) == JoinTags(tags, keys);
  }

  lemma NoTagLeft(tags: map<string, string>, keys: seq<string>)
    requires forall k :: k in keys ==> k in tags
    ensures TagsFrom(tags, keys, 0) == JoinTags(tags, keys) && TagsFrom(tags, keys, |keys|) == ""
  {
  }

  method WriteTags(tags: map<string, string>, keys: seq<string>) returns (b: string)
    requires forall k :: k in keys ==> k in tags
    ensures b == JoinTags(tags, keys)
  {
    hide TagsFrom, JoinTags, TagText;
    b := "";
    NoTagLeft(tags, keys);
    for i := 0 to |keys|
      invariant b + TagsFrom(tags, keys, i) == JoinTags(tags, keys)
    {
      OneTag(tags, keys, i);
      ghost var rest := TagsFrom(tags, keys, i + 1);
      ghost var before := b;
      if i > 0 {
        b := b + ";";
      }
      var text := WriteTag(keys[i], tags[keys[i]]);
      Assoc(before, if i == 0 then "" else ";", text + rest);
      Assoc(b, text, rest);
      b := b + text;
    }
  }

  lemma TagsStep(tags: map<string, string>, keys: seq<string>)
    requires keys != [] && forall k :: k in keys ==> k in tags
    ensures JoinTags(tags, keys) == TagText(keys[0], tags[keys[0]]) + TagsLeft(tags, keys[1..])
  {
  }

  /** What is still to be written of the parameters. */
  function ParamsLeft(params: seq<string>): string {
    if params == [] then "" else " " + ParamText(params)
  }

  /** Appends the parameters to `head`; nothing when one of them cannot be written. */
  method WriteParams(head: string, params: seq<string>) returns (r: Option<string>)
    ensures r == if ParamsOk(params) then Some(head + ParamsLeft(params)) else None
  {
    var b := head;
    for i := 0 to |params|
      invariant b + ParamsLeft(params[i..]) == head + ParamsLeft(params)
      invariant forall k :: 0 <= k < i ==> if k == |params| - 1 then TrailingOk(params[k]) else MiddleOk(params[k])
    {
      var p := params[i];
      ParamsStep(params[i..]);
      assert params[i..][1..] == params[i + 1..];
      ghost var before, rest := b, ParamsLeft(params[i + 1..]);
      b := b + " ";
      if i == |params| - 1 {
        var ok := AssertTrailing(p);
        if !ok {
          return None;
        }
        Assoc(before, " ", (":" + p) + rest);
        Assoc(b, ":" + p, rest);
        b := b + (":" + p);
        continue;
      }
      var ok := AssertMiddle(p);
      if !ok {
        return None;
      }
      Assoc(before, " ", p + rest);
      Assoc(b, p, rest);
      b := b + p;
    }
    assert params[|params|..] == [] && b + "" == b;
    r := Some(b);
  }

  lemma ParamsStep(params: seq<string>)
    requires params != []
    ensures ParamsLeft(params)
            == " " + ((if |params| == 1 then ":" + params[0] else params[0]) + ParamsLeft(params[1..]))
  {
    if |params| == 1 {
      assert params[1..] == [] && (":" + params[0]) + "" == ":" + params[0];
    }
  }

  /** Message.Bytes. The tags are written in byte order of their keys. */
  method Bytes(m: Message) returns (r: Result<string>, keys: seq<string>)
    ensures Sorted(keys) && Enumerates(keys, m.tags.Keys)
    ensures r == EncodeIn(m, keys)
  {
    keys := SortKeys(m.tags.Keys);
    if !ValidCommand(m.command) {
      return Err(ErrBadCommand), keys;
    }
    if |m.params| > MAX_PARAMS {
      return Err(ErrTooManyParams), keys;
    }
    var tags := "";
    if |m.tags| > 0 {
      var section := WriteTags(m.tags, keys);
      tags := "@" + section + " ";
    }
    var prefix := if m.prefix != "" then ":" + m.prefix + " " else "";
    DigitsHaveNoCase(m.command);
    var b := tags + prefix + if IsAllDigits(m.command) then m.command else Upper(m.command);
    var written := WriteParams(b, m.params);
    HeadThenParams(m, keys, tags, prefix);
    if written.None? {
      return Err(ErrBadCommand), keys;
    }
    var line := written.value + "\r\n";
    r := if |line| > MAX_MESSAGE_BYTES then Err(ErrTooLong) else Ok(line);
  }

  lemma HeadThenParams(m: Message, keys: seq<string>, tags: string, prefix: string)
    requires forall k :: k in keys ==> k in m.tags
    requires tags == if |m.tags| > 0 then "@" + JoinTags(m.tags, keys) + " " else ""
    requires prefix == if m.prefix != "" then ":" + m.prefix + " " else ""
    ensures (tags + prefix + Upper(m.command)) + ParamsLeft(m.params) == Text(m, keys)
  {
    Assoc(tags + prefix, Upper(m.command), ParamsLeft(m.params));
    Assoc(tags, prefix, CommandText(m));
    if m.prefix != "" {
      Assoc(":" + m.prefix, " ", CommandText(m));
      Assoc(":", m.prefix, " " + CommandText(m));
    }
    assert prefix + CommandText(m) == PrefixText(m);
    if |m.tags| > 0 {
      Assoc("@" + JoinTags(m.tags, keys), " ", PrefixText(m));
      Assoc("@", JoinTags(m.tags, keys), " " + PrefixText(m));
    }
  }
}
