/** How the configuration parser reads the text of one line: keys, quotes and flow sequences. */
module YamlText {
  import opened Prelude

  /** A key and what follows its colon. */
  datatype KeyRest = KeyRest(key: string, rest: string)

  predicate IsBlank(c: char) {
    c == ' ' || c == '\t'
  }

  predicate IsSpace(c: char) {
    c in {' ', '\t', '\n', '\r', '\U{000B}', '\U{000C}'}
  }

  function TrimRight(s: string, cut: char -> bool): string {
    if s != "" && cut(s[|s| - 1]) then TrimRight(s[..|s| - 1], cut) else s
  }

  function TrimSpace(s: string): string {
    TrimRight(TrimLeft(s, IsSpace), IsSpace)
  }

  // ----- quotes -----

  /** The contents of a single-quoted scalar: '' stands for one quote. */
  function Undouble(body: string): string {
    if |body| < 2 then body
    else if body[0] == '\'' && body[1] == '\'' then "'" + Undouble(body[2..])
    else [body[0]] + Undouble(body[1..])
  }

  function Escaped(c: char): char {
    match c
    case 'n' => '\n'
    case 't' => '\t'
    case 'r' => '\r'
    case _ => c
  }

  /** The contents of a double-quoted scalar: a backslash at the very end stands for itself. */
  function Unescape(body: string): string {
    if body == "" then ""
    else if body[0] != '\\' || |body| == 1 then [body[0]] + Unescape(body[1..])
    else [Escaped(body[1])] + Unescape(body[2..])
  }

  function Unquote(s: string): string {
    if |s| < 2 || s[|s| - 1] != s[0] || (s[0] != '\'' && s[0] != '"') then s
    else if s[0] == '\'' then Undouble(s[1..|s| - 1])
    else Unescape(s[1..|s| - 1])
  }

  /** The position of the closing quote at or after i. */
  function QuoteEnd(line: string, quote: char, i: nat): Option<nat>
    decreases |line| - i
  {
    if i >= |line| then None
    else if line[i] == '\\' && quote == '"' && i + 1 < |line| then QuoteEnd(line, quote, i + 2)
    else if line[i] == quote then Some(i)
    else QuoteEnd(line, quote, i + 1)
  }

  lemma {:induction false} QuoteEndBounds(line: string, quote: char, i: nat)
    ensures QuoteEnd(line, quote, i).Some? ==> i <= QuoteEnd(line, quote, i).value < |line|
    decreases |line| - i
  {
    if i < |line| {
      if line[i] == '\\' && quote == '"' && i + 1 < |line| {
        QuoteEndBounds(line, quote, i + 2);
      } else if line[i] != quote {
        QuoteEndBounds(line, quote, i + 1);
      }
    }
  }

  // ----- keys -----

  function QuotedKey(line: string): Option<KeyRest>
    requires line != ""
  {
    var end := QuoteEnd(line, line[0], 1);
    if end.None? || end.value + 1 >= |line| || line[end.value + 1] != ':' then None
    else Some(KeyRest(Unquote(line[..end.value + 1]), TrimLeft(line[end.value + 2..], IsBlank)))
  }

  /** The colon at i ends a bare key. */
  predicate EndsKey(line: string, i: nat)
    requires i < |line|
  {
    line[i] == ':' && (i + 1 == |line| || IsBlank(line[i + 1]))
  }

  function BareKey(line: string, i: nat): Option<KeyRest>
    requires i <= |line|
    decreases |line| - i
  {
    if i == |line| then None
    else if !EndsKey(line, i) then BareKey(line, i + 1)
    else
      var key := TrimRight(line[..i], IsBlank);
      if key == "" then None else Some(KeyRest(key, TrimLeft(line[i + 1..], IsBlank)))
  }

  /** "key: rest", the key quoted or bare. */
  function MappingKey(line: string): Option<KeyRest> {
    if line != "" && (line[0] == '"' || line[0] == '\'') then QuotedKey(line) else BareKey(line, 0)
  }

  method FindQuoteEnd(line: string, quote: char) returns (end: int)
    requires line != ""
    ensures match QuoteEnd(line, quote, 1) case None => end == -1 case Some(i) => end == i < |line|
  {
    var i := 1;
    QuoteEndBounds(line, quote, 1);
    while i < |line|
      invariant 1 <= i
      invariant QuoteEnd(line, quote, i) == QuoteEnd(line, quote, 1)
    {
      if line[i] == '\\' && quote == '"' && i + 1 < |line| {
        i := i + 2;
        continue;
      }
      if line[i] == quote {
        return i;
      }
      i := i + 1;
    }
    end := -1;
  }

  method TryMappingKey(line: string) returns (r: Option<KeyRest>)
    ensures r == MappingKey(line)
  {
    if |line| > 0 && (line[0] == '"' || line[0] == '\'') {
      var end := FindQuoteEnd(line, line[0]);
      if end < 0 || end + 1 >= |line| || line[end + 1] != ':' {
        return None;
      }
      return Some(KeyRest(Unquote(line[..end + 1]), TrimLeft(line[end + 2..], IsBlank)));
    }
    for i := 0 to |line|
      invariant BareKey(line, i) == BareKey(line, 0)
    {
      if line[i] != ':' {
        continue;
      }
      if i + 1 == |line| || line[i + 1] == ' ' || line[i + 1] == '\t' {
        var key := TrimRight(line[..i], IsBlank);
        if key == "" {
          return None;
        }
        return Some(KeyRest(key, TrimLeft(line[i + 1..], IsBlank)));
      }
    }
    r := None;
  }

  // ----- flow sequences -----

  function Token(cur: string): seq<string> {
    if TrimSpace(cur) == "" then [] else [TrimSpace(cur)]
  }

  function Before(tokens: seq<string>, rest: Option<seq<string>>): Option<seq<string>> {
    match rest
    case None => None
    case Some(more) => Some(tokens + more)
  }

  /** The items of a flow sequence from `body` on, with the item read so far in `cur`; nothing when a
      quote is left open. */
  function Flow(body: string, cur: string, inDouble: bool, inSingle: bool): Option<seq<string>>
    decreases |body|
  {
    if body == "" then (if inDouble || inSingle then None else Some(Token(cur)))
    else if body[0] == '\\' && inDouble && |body| > 1 then Flow(body[2..], cur + body[..2], inDouble, inSingle)
    else if body[0] == '"' && !inSingle then Flow(body[1..], cur + [body[0]], !inDouble, inSingle)
    else if body[0] == '\'' && !inDouble then Flow(body[1..], cur + [body[0]], inDouble, !inSingle)
    else if body[0] == ',' && !inDouble && !inSingle then Before(Token(cur), Flow(body[1..], "", inDouble, inSingle))
    else Flow(body[1..], cur + [body[0]], inDouble, inSingle)
  }

  function FlowItems(body: string): Option<seq<string>> {
    if TrimSpace(body) == "" then Some([]) else Flow(TrimSpace(body), "", false, false)
  }

  lemma BeforeNothing(rest: Option<seq<string>>)
    ensures Before([], rest) == rest
  {
    if rest.Some? {
      assert [] + rest.value == rest.value;
    }
  }

  lemma BeforeTwice(a: seq<string>, b: seq<string>, rest: Option<seq<string>>)
    ensures Before(a, Before(b, rest)) == Before(a + b, rest)
  {
    if rest.Some? {
      Assoc(a, b, rest.value);
    }
  }

  method ParseFlowSequence(text: string) returns (r: Option<seq<string>>)
    ensures r == FlowItems(text)
  {
    var body := TrimSpace(text);
    if body == "" {
      return Some([]);
    }
    var out, cur, inDouble, inSingle := [], "", false, false;
    var i := 0;
    BeforeNothing(Flow(body, "", false, false));
    while i < |body|
      invariant 0 <= i <= |body|
      invariant Before(out, Flow(body[i..], cur, inDouble, inSingle)) == Flow(body, "", false, false)
    {
      var c := body[i];
      assert body[i..][1..] == body[i + 1..];
      if c == '\\' && inDouble && i + 1 < |body| {
        assert body[i..][2..] == body[i + 2..] && body[i..][..2] == [c, body[i + 1]];
        cur := cur + [c, body[i + 1]];
        i := i + 1;
      } else if c == '"' && !inSingle {
        inDouble := !inDouble;
        cur := cur + [c];
      } else if c == '\'' && !inDouble {
        inSingle := !inSingle;
        cur := cur + [c];
      } else if c == ',' && !inDouble && !inSingle {
        BeforeTwice(out, Token(cur), Flow(body[i + 1..], "", inDouble, inSingle));
        out := out + Token(cur);
        cur := "";
      } else {
        cur := cur + [c];
      }
      i := i + 1;
    }
    if inDouble || inSingle {
      return None;
    }
    r := Some(out + Token(cur));
  }
}
