/** The wire format: section 2.3 of RFC 1459, section 2.3.1 of RFC 2812, and the "Escaping values" rules
    of the IRCv3 message-tags specification. One character stands for one byte. */
module WireSpec {
  import opened Prelude
  import opened Message

  const MAX_MESSAGE_BYTES := 512
  const MAX_PARAMS := 15

  datatype WireError = ErrEmpty | ErrTooLong | ErrTooManyParams | ErrBadCommand | ErrBadTags

  datatype Result<+T> = Ok(value: T) | Err(error: WireError)

  // ----- characters and words -----

  predicate IsLetter(c: char) {
    'a' <= c <= 'z' || 'A' <= c <= 'Z'
  }

  predicate IsAllDigits(s: string) {
    s != "" && forall i :: 0 <= i < |s| ==> IsDigit(s[i])
  }

  /** A run of letters or exactly three digits. */
  predicate ValidCommand(s: string) {
    s != "" && (if IsAllDigits(s) then |s| == 3 else forall i :: 0 <= i < |s| ==> IsLetter(s[i]))
  }

  function UpperChar(c: char): char {
    if 'a' <= c <= 'z' then (c as int - 32) as char else c
  }

  function Upper(s: string): (r: string)
    ensures |r| == |s|
  {
    seq(|s|, i requires 0 <= i < |s| => UpperChar(s[i]))
  }

  /** What follows the first space, leading spaces removed; nothing when there is no space. */
  function AfterSpace(s: string): (r: string)
    ensures |r| <= |s| && (s != "" ==> |r| < |s|)
    ensures r != "" ==> r[0] != ' '
  {
    var i := IndexOf(s, ' ');
    if i < |s| then TrimLeft(s[i + 1..], IsSpaceChar) else ""
  }

  function BeforeSpace(s: string): string {
    s[..IndexOf(s, ' ')]
  }

  /** One trailing LF, then one trailing CR, removed. */
  function Stripped(line: string): string {
    var s := if line != "" && line[|line| - 1] == '\n' then line[..|line| - 1] else line;
    if s != "" && s[|s| - 1] == '\r' then s[..|s| - 1] else s
  }

  // ----- tag values -----

  function EscapeChar(c: char): string {
    if c == ';' then "\\:"
    else if c == ' ' then "\\s"
    else if c == '\\' then "\\\\"
    else if c == '\r' then "\\r"
    else if c == '\n' then "\\n"
    else [c]
  }

  function Escape(v: string): string {
    if v == "" then "" else EscapeChar(v[0]) + Escape(v[1..])
  }

  function UnescapeChar(c: char): char {
    if c == ':' then ';' else if c == 's' then ' ' else if c == 'r' then '\r' else if c == 'n' then '\n' else c
  }

  /** A backslash before any other character is dropped, and so is one at the very end. */
  function Unescape(s: string): string
    decreases |s|
  {
    if s == "" then ""
    else if s[0] != '\\' then [s[0]] + Unescape(s[1..])
    else if |s| == 1 then ""
    else [UnescapeChar(s[1])] + Unescape(s[2..])
  }

  // ----- parsing -----

  /** The tags of a tag section, split at each ';'. */
  function SplitTags(body: string): (r: seq<string>)
    ensures r != []
    decreases |body|
  {
    var i := IndexOf(body, ';');
    if i < |body| then [body[..i]] + SplitTags(body[i + 1..]) else [body]
  }

  function TagKey(tag: string): string {
    tag[..IndexOf(tag, '=')]
  }

  function TagValue(tag: string): string {
    var i := IndexOf(tag, '=');
    if i < |tag| then Unescape(tag[i + 1..]) else ""
  }

  /** The last tag with a key decides its value. */
  function TagMap(tags: seq<string>): map<string, string> {
    if tags == [] then map[]
    else
      var t := tags[|tags| - 1];
      TagMap(tags[..|tags| - 1])[TagKey(t) := TagValue(t)]
  }

  function ParseTags(body: string): Result<map<string, string>> {
    var tags := SplitTags(body);
    if forall i :: 0 <= i < |tags| ==> TagKey(tags[i]) != "" then Ok(TagMap(tags)) else Err(ErrBadTags)
  }

  /** The parameters in `s`, when `n` were read before it. */
  function ParseParams(s: string, n: nat): seq<string>
    decreases |s|
  {
    if s == "" then []
    else if s[0] == ':' then [s[1..]]
    else if n >= MAX_PARAMS - 1 then [s]
    else if ' ' !in s then [s]
    else [BeforeSpace(s)] + ParseParams(AfterSpace(s), n + 1)
  }

  function ParseCommand(tags: map<string, string>, prefix: string, s: string): Result<Message> {
    if !ValidCommand(BeforeSpace(s)) then Err(ErrBadCommand)
    else Ok(Message(tags, prefix, Upper(BeforeSpace(s)), ParseParams(AfterSpace(s), 0)))
  }

  function ParsePrefix(tags: map<string, string>, s: string): Result<Message>
    requires s != ""
  {
    if s[0] != ':' then ParseCommand(tags, "", s)
    else if ' ' !in s || AfterSpace(s) == "" then Err(ErrEmpty)
    else ParseCommand(tags, BeforeSpace(s)[1..], AfterSpace(s))
  }

  function ParseText(s: string): Result<Message> {
    if s == "" then Err(ErrEmpty)
    else if s[0] != '@' then ParsePrefix(map[], s)
    else if ' ' !in s then Err(ErrBadTags)
    else
      var tags := ParseTags(BeforeSpace(s)[1..]);
      if tags.Err? then Err(tags.error)
      else if AfterSpace(s) == "" then Err(ErrEmpty)
      else ParsePrefix(tags.value, AfterSpace(s))
  }

  function ParseLine(line: string): Result<Message> {
    if |line| > MAX_MESSAGE_BYTES then Err(ErrTooLong) else ParseText(Stripped(line))
  }

  // ----- encoding -----

  function TagText(key: string, value: string): string {
    key + if value == "" then "" else "=" + Escape(value)
  }

  /** The tags in the order of `keys`. */
  function JoinTags(tags: map<string, string>, keys: seq<string>): string
    requires forall k :: k in keys ==> k in tags
  {
    if keys == [] then ""
    else if |keys| == 1 then TagText(keys[0], tags[keys[0]])
    else TagText(keys[0], tags[keys[0]]) + (";" + JoinTags(tags, keys[1..]))
  }

  /** The last parameter is always written in the trailing form. */
  function ParamText(params: seq<string>): string {
    if params == [] then ""
    else if |params| == 1 then ":" + params[0]
    else params[0] + (" " + ParamText(params[1..]))
  }

  function CommandText(m: Message): string {
    Upper(m.command) + if m.params == [] then "" else " " + ParamText(m.params)
  }

  function PrefixText(m: Message): string {
    if m.prefix == "" then CommandText(m) else ":" + (m.prefix + (" " + CommandText(m)))
  }

  function Text(m: Message, keys: seq<string>): string
    requires forall k :: k in keys ==> k in m.tags
  {
    if m.tags == map[] then PrefixText(m) else "@" + (JoinTags(m.tags, keys) + (" " + PrefixText(m)))
  }

  predicate Clean(c: char) {
    c != '\r' && c != '\n' && c != '\0'
  }

  predicate TrailingOk(p: string) {
    forall i :: 0 <= i < |p| ==> Clean(p[i])
  }

  predicate MiddleOk(p: string) {
    p != "" && p[0] != ':' && ' ' !in p && TrailingOk(p)
  }

  predicate ParamsOk(params: seq<string>) {
    forall i :: 0 <= i < |params| ==> if i == |params| - 1 then TrailingOk(params[i]) else MiddleOk(params[i])
  }

  /** The line for a message whose tags are written in the order of `keys`. */
  function EncodeIn(m: Message, keys: seq<string>): Result<string>
    requires forall k :: k in keys ==> k in m.tags
  {
    if !ValidCommand(m.command) then Err(ErrBadCommand)
    else if |m.params| > MAX_PARAMS then Err(ErrTooManyParams)
    else if !ParamsOk(m.params) then Err(ErrBadCommand)
    else
      var line := Text(m, keys) + "\r\n";
      if |line| > MAX_MESSAGE_BYTES then Err(ErrTooLong) else Ok(line)
  }
}
