/** A document written out in block style is read back as the document it was. */
module YamlPrint {
  import opened Prelude
  import opened YamlText
  import opened YamlInline
  import opened YamlGrammar
  import opened YamlUnique

  // ----- documents -----

  datatype Field = Field(key: string, value: Doc)

  /** Text, nothing, a sequence on one line, a mapping with its keys in order, or a sequence. */
  datatype Doc = Text(text: string) | Nothing | Flow(tokens: seq<string>) | Dict(fields: seq<Field>)
    | Array(items: seq<Doc>)

  function ValueOf(d: Doc): Value
    decreases d
  {
    match d
    case Text(text) => Scalar(text)
    case Nothing => Null
    case Flow(tokens) => List(Scalars(tokens))
    case Dict(fields) => Map(FieldsOf(fields))
    case Array(items) => List(ItemsOf(items))
  }

  function FieldsOf(fs: seq<Field>): map<string, Value>
    decreases fs
  {
    if fs == [] then map[] else FieldsOf(fs[..|fs| - 1])[fs[|fs| - 1].key := ValueOf(fs[|fs| - 1].value)]
  }

  function ItemsOf(items: seq<Doc>): seq<Value>
    decreases items
  {
    if items == [] then [] else ItemsOf(items[..|items| - 1]) + [ValueOf(items[|items| - 1])]
  }

  // ----- what can be written -----

  /** Text that is not taken for a container. */
  predicate TextOk(t: string) {
    && t != "" && !IsBlank(t[0]) && t != "{}" && t != "[]"
    && !(|t| >= 2 && t[0] == '[' && t[|t| - 1] == ']')
  }

  predicate KeyOk(k: string) {
    PlainKey(k) && k[0] != ' ' && !("- " <= k)
  }

  /** Text behind a dash that is not taken for a key. */
  predicate ItemTextOk(t: string) {
    t != "" && t[0] != ' ' && MappingKey(t).None?
  }

  predicate IsBlock(d: Doc) {
    (d.Dict? && d.fields != []) || (d.Array? && d.items != [])
  }

  /** A document that can stand behind a key. An empty container, or a sequence on one line, cannot be an item. */
  ghost predicate Writable(d: Doc)
    decreases d, 1
  {
    match d
    case Text(text) => TextOk(text)
    case Nothing => true
    case Flow(tokens) => tokens != [] && forall t :: t in tokens ==> FlowWord(t)
    case Dict(fields) => WritableFields(fields)
    case Array(items) => forall i :: 0 <= i < |items| ==> WritableItem(items[i])
  }

  ghost predicate WritableFields(fs: seq<Field>)
    decreases fs, 0
  {
    && (forall i :: 0 <= i < |fs| ==> KeyOk(fs[i].key) && Writable(fs[i].value))
    && forall i, j :: 0 <= i < j < |fs| ==> fs[i].key != fs[j].key
  }

  ghost predicate WritableItem(d: Doc)
    decreases d, 2
  {
    match d
    case Text(text) => ItemTextOk(text)
    case Nothing => true
    case Flow(_) => false
    case _ => IsBlock(d) && Writable(d)
  }

  // ----- writing -----

  datatype Row = Row(indent: nat, text: string)

  function OneRow(tokens: seq<string>): string {
    "[" + Joined(tokens, " ") + "]"
  }

  /** What is written behind the colon of a key. */
  function Behind(d: Doc): string {
    match d
    case Text(text) => text
    case Nothing => ""
    case Flow(tokens) => OneRow(tokens)
    case Dict(fields) => if fields == [] then "{}" else ""
    case Array(items) => if items == [] then "[]" else ""
  }

  function Gap(rest: string): string {
    if rest == "" then "" else " "
  }

  function KeyText(f: Field): string {
    f.key + (":" + (Gap(Behind(f.value)) + Behind(f.value)))
  }

  function Print(d: Doc, n: nat): seq<Row>
    decreases d, 1
  {
    match d
    case Dict(fields) => PrintFields(fields, n)
    case Array(items) => PrintItems(items, n)
    case _ => []
  }

  function PrintFields(fs: seq<Field>, n: nat): seq<Row>
    decreases fs
  {
    if fs == [] then [] else PrintFields(fs[..|fs| - 1], n) + PrintField(fs[|fs| - 1], n)
  }

  function PrintField(f: Field, n: nat): seq<Row>
    decreases f
  {
    [Row(n, KeyText(f))] + Print(f.value, n + 2)
  }

  function PrintItems(items: seq<Doc>, n: nat): seq<Row>
    decreases items
  {
    if items == [] then [] else PrintItems(items[..|items| - 1], n) + PrintItem(items[|items| - 1], n)
  }

  /** A mapping starts on the line of the dash. */
  function PrintItem(d: Doc, n: nat): seq<Row>
    decreases d, 2
  {
    match d
    case Text(text) => [Row(n, "- " + text)]
    case Dict(fields) =>
      if fields == [] then []
      else
        var first := PrintField(fields[0], n + 2);
        [Row(n, "- " + KeyText(fields[0]))] + first[1..] + PrintFields(fields[1..], n + 2)
    case _ => [Row(n, "-")] + Print(d, n + 2)
  }

  // ----- reading -----

  /** The rows stand in the lines from `from` on. */
  predicate Shows(lines: seq<Line>, from: nat, rows: seq<Row>) {
    && from + |rows| <= |lines|
    && forall i :: 0 <= i < |rows| ==> lines[from + i].indent == rows[i].indent && lines[from + i].text == rows[i].text
  }

  /** The lines end, or go on no further in than `n`. */
  predicate Closes(lines: seq<Line>, to: nat, n: int) {
    to == |lines| || (to < |lines| && 0 <= lines[to].indent <= n)
  }

  lemma ShowsBoth(lines: seq<Line>, from: nat, a: seq<Row>, b: seq<Row>)
    requires Shows(lines, from, a + b)
    ensures Shows(lines, from, a) && Shows(lines, from + |a|, b)
  {
    assert forall i :: 0 <= i < |a| ==> (a + b)[i] == a[i];
    assert forall i :: 0 <= i < |b| ==> (a + b)[|a| + i] == b[i];
  }

  lemma KeyIsNoDash(key: string, tail: string)
    requires key != "" && !("- " <= key)
    ensures !IsDash(key + (":" + tail))
  {
    var text := key + (":" + tail);
    assert text[0] == key[0] && text[1] == if |key| > 1 then key[1] else ':';
  }

  lemma KeyRead(f: Field)
    requires KeyOk(f.key) && Writable(f.value)
    ensures MappingKey(KeyText(f)) == Some(KeyRest(f.key, Behind(f.value)))
    ensures !IsDash(KeyText(f)) && KeyText(f) != "" && KeyText(f)[0] != ' '
  {
    var rest := Behind(f.value);
    assert rest != "" ==> !IsBlank(rest[0]);
    BareKeyRoundTrip(f.key, Gap(rest), rest);
    assert KeyText(f)[0] == f.key[0];
    KeyIsNoDash(f.key, Gap(rest) + rest);
  }

  lemma FlowRead(tokens: seq<string>)
    requires tokens != [] && forall t :: t in tokens ==> FlowWord(t)
    ensures Inline(OneRow(tokens)) == Some(List(Scalars(tokens)))
  {
    var row := OneRow(tokens);
    assert row[1..|row| - 1] == Joined(tokens, " ");
    FlowRoundTrip(tokens, " ");
    assert tokens[0] in tokens;
    JoinedNotEmpty(tokens);
  }

  /** A sequence on one line with a quote that is not closed is an error, and not a text. */
  lemma OpenRowRefused(s: string)
    requires '\'' !in s && Trimmed("'" + s) && Trimmed("\"" + EscapeAll(s))
    ensures Inline("[" + ("'" + s) + "]") == None && Inline("[" + ("\"" + EscapeAll(s)) + "]") == None
  {
    hide FlowItems;
    OpenQuoteRefused(s);
    RowIsItems("'" + s);
    RowIsItems("\"" + EscapeAll(s));
  }

  lemma RowIsItems(body: string)
    requires body != ""
    ensures Inline("[" + body + "]")
         == match FlowItems(body)
            case None => None
            case Some(tokens) => Some(List(Scalars(tokens)))
  {
    hide FlowItems;
    var row := "[" + body + "]";
    assert row[1..|row| - 1] == body;
  }

  lemma JoinedNotEmpty(tokens: seq<string>)
    requires tokens != [] && forall t :: t in tokens ==> FlowWord(t)
    ensures Joined(tokens, " ") != ""
  {
    assert tokens[0] in tokens;
    if QuotedToken(tokens[0]) {
      QuotedIsTrimmed(tokens[0]);
    }
  }

  /** A value on the line of its key. */
  lemma InlineRead(d: Doc)
    requires Writable(d) && Behind(d) != ""
    ensures Inline(Behind(d)) == Some(ValueOf(d))
  {
    match d
    case Flow(tokens) => FlowRead(tokens);
    case _ =>
  }

  /** The rows of a block start at its indent. */
  lemma {:induction false} PrintStarts(d: Doc, n: nat)
    requires IsBlock(d) && Writable(d)
    ensures Print(d, n) != [] && Print(d, n)[0].indent == n
    ensures IsDash(Print(d, n)[0].text) <==> d.Array?
    decreases d
  {
    match d {
      case Dict(fields) => FieldsStart(fields, n);
      case Array(items) => ItemsStart(items, n);
    }
  }

  lemma {:induction false} FieldsStart(fs: seq<Field>, n: nat)
    requires fs != [] && WritableFields(fs)
    ensures PrintFields(fs, n) != [] && PrintFields(fs, n)[0] == Row(n, KeyText(fs[0]))
    ensures !IsDash(KeyText(fs[0]))
    decreases |fs|
  {
    KeyRead(fs[0]);
    var front := fs[..|fs| - 1];
    if front != [] {
      FieldsStart(front, n);
    }
  }

  lemma ItemStarts(d: Doc, n: nat)
    requires WritableItem(d)
    ensures PrintItem(d, n) != [] && PrintItem(d, n)[0].indent == n && IsDash(PrintItem(d, n)[0].text)
  {
  }

  lemma {:induction false} ItemsStart(items: seq<Doc>, n: nat)
    requires items != [] && forall i :: 0 <= i < |items| ==> WritableItem(items[i])
    ensures PrintItems(items, n) != [] && PrintItems(items, n)[0].indent == n && IsDash(PrintItems(items, n)[0].text)
    decreases |items|
  {
    var front := items[..|items| - 1];
    ItemStarts(items[|items| - 1], n);
    if front != [] {
      ItemsStart(front, n);
    }
  }

  /** What is written behind a key or below it is read as the value. */
  lemma {:induction false} ValueRead(lines: seq<Line>, n: nat, d: Doc, from: nat) returns (t: Tree)
    requires Writable(d) && Shows(lines, from, Print(d, n + 2)) && Closes(lines, from + |Print(d, n + 2)|, n)
    ensures ValueAt(lines, n, Behind(d), t, from, from + |Print(d, n + 2)|) && Erase(t) == ValueOf(d)
    decreases d, 4
  {
    if IsBlock(d) {
      PrintStarts(d, n + 2);
      t := BlockRead(lines, n + 2, d, from);
    } else if d.Nothing? {
      t := Leaf(Null);
    } else {
      InlineRead(d);
      t := Leaf(ValueOf(d));
    }
  }

  /** A block is read to its end. */
  lemma {:induction false} BlockRead(lines: seq<Line>, n: nat, d: Doc, from: nat) returns (t: Tree)
    requires IsBlock(d) && Writable(d) && Shows(lines, from, Print(d, n))
    requires from + |Print(d, n)| == |lines| || Closes(lines, from + |Print(d, n)|, n - 1)
    ensures Block(lines, n, t, from, from + |Print(d, n)|) && Erase(t) == ValueOf(d)
    decreases d, 3
  {
    hide Shows, Chained, ChainedItems, EntryAt, ItemAt, Closes, PrintFields, PrintItems, WritableItem, WritableFields;
    var to := from + |Print(d, n)|;
    BlockCloses(lines, n, to);
    PrintStarts(d, n);
    RowShows(lines, from, Print(d, n), n);
    if d.Dict? {
      var es := FieldsRead(lines, n, d.fields, from);
      t := Mapping(es);
    } else {
      var read := ItemsRead(lines, n, d.items, from);
      t := Sequence(read);
    }
  }

  lemma BlockCloses(lines: seq<Line>, n: nat, to: nat)
    requires to == |lines| || Closes(lines, to, n - 1)
    ensures Closes(lines, to, n) && Outdented(lines, to, n)
  {
  }

  /** A key with its value. */
  lemma {:induction false} FieldRead(lines: seq<Line>, n: nat, f: Field, from: nat) returns (e: Entry)
    requires KeyOk(f.key) && Writable(f.value) && Shows(lines, from, PrintField(f, n))
    requires Closes(lines, from + |PrintField(f, n)|, n)
    ensures EntryAt(lines, n, e) && e.at == from < e.end == from + |PrintField(f, n)| && e.key == f.key
    ensures Erase(e.value) == ValueOf(f.value)
    decreases f, 5
  {
    KeyRead(f);
    ShowsBoth(lines, from, [Row(n, KeyText(f))], Print(f.value, n + 2));
    var t := ValueRead(lines, n, f.value, from + 1);
    e := Entry(from, f.key, t, from + |PrintField(f, n)|);
    assert lines[from].text == PrintField(f, n)[0].text;
  }

  /** The keys of a mapping, one after the other. */
  lemma {:induction false} FieldsRead(lines: seq<Line>, n: nat, fs: seq<Field>, from: nat) returns (es: seq<Entry>)
    requires WritableFields(fs) && Shows(lines, from, PrintFields(fs, n))
    requires Closes(lines, from + |PrintFields(fs, n)|, n)
    ensures |es| == |fs| && Chained(es, from, from + |PrintFields(fs, n)|)
    ensures forall e :: e in es ==> EntryAt(lines, n, e)
    ensures forall i :: 0 <= i < |fs| ==> es[i].key == fs[i].key
    ensures EraseEntries(es) == FieldsOf(fs)
    decreases fs, 2
  {
    hide Shows, Closes, Writable, EntryAt, PrintField;
    es := [];
    if fs != [] {
      var front, last := fs[..|fs| - 1], fs[|fs| - 1];
      ShowsBoth(lines, from, PrintFields(front, n), PrintField(last, n));
      var mid := from + |PrintFields(front, n)|;
      FrontCloses(lines, n, last, mid);
      assert WritableFields(front) && KeyOk(last.key) && Writable(last.value);
      var first := FieldsRead(lines, n, front, from);
      var e := FieldRead(lines, n, last, mid);
      es := first + [e];
      MoreChained(lines, n, first, e, front, last, from, mid);
    }
  }

  lemma FrontCloses(lines: seq<Line>, n: nat, f: Field, mid: nat)
    requires Shows(lines, mid, PrintField(f, n))
    ensures Closes(lines, mid, n)
  {
    RowShows(lines, mid, PrintField(f, n), n);
  }

  lemma MoreChained(lines: seq<Line>, n: nat, first: seq<Entry>, e: Entry, front: seq<Field>, last: Field, from: nat,
                    mid: nat)
    requires Chained(first, from, mid) && e.at == mid < e.end && e.key == last.key && |first| == |front|
    requires forall i :: 0 <= i < |front| ==> first[i].key == front[i].key
    requires forall i :: 0 <= i < |front| ==> front[i].key != last.key
    ensures Chained(first + [e], from, e.end)
    ensures forall i :: 0 <= i < |first| + 1 ==> (first + [e])[i].key == (front + [last])[i].key
    ensures EraseEntries(first + [e]) == EraseEntries(first)[e.key := Erase(e.value)]
  {
    assert (first + [e])[..|first|] == first;
    forall x | x in first ensures x.key != e.key {
      var i :| 0 <= i < |first| && first[i] == x;
      assert first[i].key == front[i].key;
    }
  }

  /** The items of a sequence, one after the other. */
  lemma {:induction false} ItemsRead(lines: seq<Line>, n: nat, items: seq<Doc>, from: nat) returns (read: seq<Item>)
    requires (forall i :: 0 <= i < |items| ==> WritableItem(items[i])) && Shows(lines, from, PrintItems(items, n))
    requires Closes(lines, from + |PrintItems(items, n)|, n)
    ensures |read| == |items| && ChainedItems(read, from, from + |PrintItems(items, n)|)
    ensures forall i :: i in read ==> ItemAt(lines, n, i)
    ensures EraseItems(read) == ItemsOf(items)
    decreases items, 2
  {
    read := [];
    if items != [] {
      var front, last := items[..|items| - 1], items[|items| - 1];
      ShowsBoth(lines, from, PrintItems(front, n), PrintItem(last, n));
      var mid := from + |PrintItems(front, n)|;
      ItemStarts(last, n);
      assert lines[mid].indent == PrintItem(last, n)[0].indent;
      var first := ItemsRead(lines, n, front, from);
      var i := ItemRead(lines, n, last, mid);
      read := first + [i];
      assert read[..|read| - 1] == first;
    }
  }

  lemma DashRead(text: string)
    requires text != "" && text[0] != ' '
    ensures IsDash("- " + text) && AfterDash("- " + text) == text
  {
    assert ("- " + text)[1..] == " " + text;
    TrimLeftGap(" ", text, IsSpaceChar);
  }

  /** Behind a dash there may be more spaces than one. */
  lemma WideDashRead(gap: string, text: string)
    requires gap != "" && (forall i :: 0 <= i < |gap| ==> gap[i] == ' ') && (text != "" ==> text[0] != ' ')
    ensures IsDash("-" + (gap + text)) && AfterDash("-" + (gap + text)) == text
  {
    assert ("-" + (gap + text))[1..] == gap + text;
    TrimLeftGap(gap, text, IsSpaceChar);
  }

  /** One item. */
  lemma {:induction false} ItemRead(lines: seq<Line>, n: nat, d: Doc, from: nat) returns (i: Item)
    requires WritableItem(d) && Shows(lines, from, PrintItem(d, n)) && Closes(lines, from + |PrintItem(d, n)|, n)
    ensures ItemAt(lines, n, i) && i.at == from && i.end == from + |PrintItem(d, n)| && EraseItem(i) == ValueOf(d)
    decreases d, 5
  {
    assert lines[from].text == PrintItem(d, n)[0].text && lines[from].indent == n;
    i := Plain(from, "", from + 1);
    if d.Text? {
      DashRead(d.text);
      i := Plain(from, d.text, from + 1);
    } else if d.Dict? {
      i := KeyedRead(lines, n, d, from);
    } else if d.Nothing? || d.Array? {
      ShowsBoth(lines, from, [Row(n, "-")], Print(d, n + 2));
      var t := ValueRead(lines, n, d, from + 1);
      i := Nested(from, t, from + |PrintItem(d, n)|);
    }
  }

  lemma {:induction false} FirstFieldInFront(fs: seq<Field>)
    requires fs != [] && forall i, j :: 0 <= i < j < |fs| ==> fs[i].key != fs[j].key
    ensures FieldsOf(fs) == map[fs[0].key := ValueOf(fs[0].value)] + FieldsOf(fs[1..])
    decreases |fs|
  {
    if |fs| > 1 {
      var front := fs[..|fs| - 1];
      FirstFieldInFront(front);
      assert front[1..] == fs[1..][..|fs| - 2];
    } else {
      assert fs[1..] == [];
    }
  }

  /** A mapping that starts on the line of its dash. */
  lemma {:induction false} KeyedRead(lines: seq<Line>, n: nat, d: Doc, from: nat) returns (i: Item)
    requires d.Dict? && WritableItem(d) && Shows(lines, from, PrintItem(d, n))
    requires Closes(lines, from + |PrintItem(d, n)|, n)
    ensures ItemAt(lines, n, i) && i.at == from && i.end == from + |PrintItem(d, n)| && EraseItem(i) == ValueOf(d)
    decreases d, 4
  {
    hide Shows, Closes, Print, PrintFields, Writable, ValueAt, EntryAt, KeyText, IsDash, AfterDash, FieldsOf, Chained;
    var f, rest := d.fields[0], d.fields[1..];
    var nested, more := Print(f.value, n + 4), PrintFields(rest, n + 2);
    ItemRows(d, n);
    DictOfItem(d);
    RowShows(lines, from, PrintItem(d, n), n);
    ShowsBoth(lines, from, [Row(n, "- " + KeyText(f))], nested + more);
    ShowsBoth(lines, from + 1, nested, more);
    KeyRead(f);
    DashRead(KeyText(f));
    var mid := from + 1 + |nested|;
    RestCloses(lines, n, rest, mid);
    var t := ValueRead(lines, n + 2, f.value, from + 1);
    var es := FieldsRead(lines, n + 2, rest, mid);
    i := Keyed(from, f.key, t, mid, es, from + |PrintItem(d, n)|);
    FirstFieldInFront(d.fields);
    KeyedIsItem(lines, n, d, i);
  }

  lemma ItemRows(d: Doc, n: nat)
    requires d.Dict? && d.fields != []
    ensures PrintItem(d, n) == [Row(n, "- " + KeyText(d.fields[0]))]
                               + (Print(d.fields[0].value, n + 4) + PrintFields(d.fields[1..], n + 2))
  {
  }

  lemma DictOfItem(d: Doc)
    requires d.Dict? && WritableItem(d)
    ensures d.fields != [] && WritableFields(d.fields) && WritableFields(d.fields[1..])
    ensures KeyOk(d.fields[0].key) && Writable(d.fields[0].value)
  {
  }

  lemma RowShows(lines: seq<Line>, from: nat, rows: seq<Row>, n: nat)
    requires rows != [] && Shows(lines, from, rows) && rows[0].indent == n
    ensures from < |lines| && lines[from].indent == n && lines[from].text == rows[0].text
  {
  }

  /** After the first value of an item come its further keys, or a line further out. */
  lemma RestCloses(lines: seq<Line>, n: nat, rest: seq<Field>, mid: nat)
    requires WritableFields(rest) && Shows(lines, mid, PrintFields(rest, n + 2))
    requires Closes(lines, mid + |PrintFields(rest, n + 2)|, n)
    ensures Closes(lines, mid, n + 2) && Closes(lines, mid + |PrintFields(rest, n + 2)|, n + 2)
  {
    if rest != [] {
      FieldsStart(rest, n + 2);
      RowShows(lines, mid, PrintFields(rest, n + 2), n + 2);
    }
  }

  lemma KeyedIsItem(lines: seq<Line>, n: nat, d: Doc, i: Item)
    requires d.Dict? && d.fields != [] && WritableFields(d.fields) && i.Keyed?
    requires i.at < |lines| && lines[i.at].indent == n && lines[i.at].text == "- " + KeyText(d.fields[0])
    requires IsDash(lines[i.at].text) && AfterDash(lines[i.at].text) == KeyText(d.fields[0]) != ""
    requires MappingKey(KeyText(d.fields[0])) == Some(KeyRest(i.key, Behind(d.fields[0].value)))
    requires i.key == d.fields[0].key && i.at < i.mid && i.mid <= i.end
    requires ValueAt(lines, n + 2, Behind(d.fields[0].value), i.value, i.at + 1, i.mid)
    requires |i.more| == |d.fields| - 1 && Chained(i.more, i.mid, i.end) && i.mid <= |lines|
    requires forall e :: e in i.more ==> EntryAt(lines, n + 2, e)
    requires forall k :: 0 <= k < |i.more| ==> i.more[k].key == d.fields[1..][k].key
    requires Closes(lines, i.end, n)
    ensures ItemAt(lines, n, i)
  {
    forall e | e in i.more ensures e.key != i.key {
      var k :| 0 <= k < |i.more| && i.more[k] == e;
      assert i.more[k].key == d.fields[k + 1].key;
    }
  }

  // ----- whole documents -----

  /** The lines are what is written for the document, with any line numbers. */
  predicate Writes(lines: seq<Line>, d: Doc, n: nat) {
    Shows(lines, 0, Print(d, n)) && |lines| == |Print(d, n)|
  }

  /** However the written lines are parsed, all of them are used, and the value is that of the document. */
  lemma PrintedReadsBack(lines: seq<Line>, d: Doc, n: nat)
    requires IsBlock(d) && Writable(d) && Writes(lines, d, n)
    ensures exists t :: Block(lines, n, t, 0, |lines|)
    ensures forall t, to | Block(lines, n, t, 0, to) :: to == |lines| && Erase(t) == ValueOf(d)
  {
    var t := BlockRead(lines, n, d, 0);
    forall t', to | Block(lines, n, t', 0, to) ensures to == |lines| && Erase(t') == ValueOf(d) {
      UniqueBlock(lines, n, t, t', 0, |lines|, to);
    }
  }

  lemma NoMarker(tail: string)
    ensures "- " + tail != "---"
  {
    assert ("- " + tail)[1] == ' ';
  }

  /** The first line of a written document is no document marker. */
  lemma WrittenStarts(lines: seq<Line>, d: Doc, n: nat)
    requires IsBlock(d) && Writable(d) && Writes(lines, d, n)
    ensures lines != [] && lines[0].indent == n && lines[0].text != "---"
  {
    PrintStarts(d, n);
    RowShows(lines, 0, Print(d, n), n);
    match d {
      case Dict(fields) =>
        FieldsStart(fields, n);
        assert KeyText(fields[0])[|fields[0].key|] == ':';
      case Array(items) => FirstItem(items, n);
    }
  }

  lemma {:induction false} FirstItem(items: seq<Doc>, n: nat)
    requires items != [] && forall i :: 0 <= i < |items| ==> WritableItem(items[i])
    ensures PrintItems(items, n) != [] && PrintItems(items, n)[0].text != "---"
    decreases |items|
  {
    var front, last := items[..|items| - 1], items[|items| - 1];
    ItemStarts(last, n);
    if front != [] {
      FirstItem(front, n);
    } else if last.Text? {
      NoMarker(last.text);
    } else if last.Dict? {
      NoMarker(KeyText(last.fields[0]));
    }
  }
}
