/** The block structure of the configuration format: what a parse of a list of lines may be. */
module YamlGrammar {
  import opened Prelude
  import opened YamlText

  type Indent = i: int | -1 <= i

  /** A retained line. The indent is -1 when it is indented with tabs. */
  datatype Line = Line(num: nat, indent: Indent, text: string)

  datatype Value = Null | Scalar(text: string) | List(items: seq<Value>) | Map(entries: map<string, Value>)

  // ----- derivations -----

  /** How lines make up a value. A leaf has no lines of its own. */
  datatype Tree = Leaf(value: Value) | Mapping(entries: seq<Entry>) | Sequence(items: seq<Item>)

  /** A "key: ..." on line `at`; its value takes the lines up to `end`. */
  datatype Entry = Entry(at: nat, key: string, value: Tree, end: nat)

  /** A "- ..." on line `at`, up to `end`: a nested value, a mapping whose first key is on the same line
      and has the lines up to `mid`, or a scalar. */
  datatype Item =
    | Nested(at: nat, value: Tree, end: nat)
    | Keyed(at: nat, key: string, value: Tree, mid: nat, more: seq<Entry>, end: nat)
    | Plain(at: nat, text: string, end: nat)

  function Erase(t: Tree): Value
    decreases t
  {
    match t
    case Leaf(value) => value
    case Mapping(entries) => Map(EraseEntries(entries))
    case Sequence(items) => List(EraseItems(items))
  }

  function EraseEntries(es: seq<Entry>): map<string, Value>
    decreases es
  {
    if es == [] then map[]
    else EraseEntries(es[..|es| - 1])[es[|es| - 1].key := Erase(es[|es| - 1].value)]
  }

  function EraseItem(i: Item): Value
    decreases i
  {
    match i
    case Nested(_, value, _) => Erase(value)
    case Keyed(_, key, value, _, more, _) => Map(map[key := Erase(value)] + EraseEntries(more))
    case Plain(_, text, _) => Scalar(text)
  }

  function EraseItems(items: seq<Item>): seq<Value>
    decreases items
  {
    if items == [] then [] else EraseItems(items[..|items| - 1]) + [EraseItem(items[|items| - 1])]
  }

  // ----- what counts as a derivation -----

  predicate IsDash(text: string) {
    "- " <= text || text == "-"
  }

  function AfterDash(text: string): string
    requires IsDash(text)
  {
    if text == "-" then "" else TrimLeft(text[1..], IsSpaceChar)
  }

  /** A value on the same line as its key. */
  function Inline(rest: string): Option<Value> {
    if rest == "{}" then Some(Map(map[]))
    else if rest == "[]" then Some(List([]))
    else if |rest| >= 2 && rest[0] == '[' && rest[|rest| - 1] == ']' then
      var items := FlowItems(rest[1..|rest| - 1]);
      if items.None? then None else Some(List(Scalars(items.value)))
    else Some(Scalar(rest))
  }

  function Scalars(tokens: seq<string>): seq<Value> {
    seq(|tokens|, i requires 0 <= i < |tokens| => Scalar(tokens[i]))
  }

  /** A block ends at the end of the file or at a line further to the left. */
  predicate Outdented(lines: seq<Line>, to: nat, indent: int) {
    to == |lines| || (to < |lines| && -1 != lines[to].indent < indent)
  }

  /** Entries on consecutive stretches of lines, no key twice. */
  predicate Chained(es: seq<Entry>, from: nat, to: nat) {
    if es == [] then from == to
    else
      var front, last := es[..|es| - 1], es[|es| - 1];
      Chained(front, from, last.at) && last.at < last.end == to && forall e :: e in front ==> e.key != last.key
  }

  predicate ChainedItems(items: seq<Item>, from: nat, to: nat) {
    if items == [] then from == to
    else
      var front, last := items[..|items| - 1], items[|items| - 1];
      ChainedItems(front, from, last.at) && last.at < last.end == to
  }

  /** A block of lines at exactly `indent`, with whatever is nested further in. */
  ghost predicate Block(lines: seq<Line>, indent: int, t: Tree, from: nat, to: nat)
    decreases t, 3
  {
    indent != -1 && from < |lines| &&
    match t
    case Leaf(_) => false
    case Mapping(es) =>
      && es != [] && Chained(es, from, to) && Outdented(lines, to, indent)
      && forall e :: e in es ==> EntryAt(lines, indent, e)
    case Sequence(items) =>
      && items != [] && ChainedItems(items, from, to)
      && (Outdented(lines, to, indent) || (to < |lines| && lines[to].indent == indent && !IsDash(lines[to].text)))
      && forall i :: i in items ==> ItemAt(lines, indent, i)
  }

  ghost predicate EntryAt(lines: seq<Line>, indent: int, e: Entry)
    decreases e, 2
  {
    && e.at < |lines| && lines[e.at].indent == indent && !IsDash(lines[e.at].text) && MappingKey(lines[e.at].text).Some?
    && MappingKey(lines[e.at].text).value.key == e.key
    && ValueAt(lines, indent, MappingKey(lines[e.at].text).value.rest, e.value, e.at + 1, e.end)
  }

  /** What follows a colon: a value on the same line, or a block further in than the key. */
  ghost predicate ValueAt(lines: seq<Line>, parent: int, rest: string, t: Tree, from: nat, to: nat)
    decreases t, 5
  {
    if rest == "" then NestedAt(lines, parent, t, from, to)
    else t.Leaf? && Inline(rest) == Some(t.value) && from == to <= |lines|
  }

  /** The next line is further in, and starts the block; or else the value is null. */
  ghost predicate NestedAt(lines: seq<Line>, parent: int, t: Tree, from: nat, to: nat)
    decreases t, 4
  {
    if from < |lines| && lines[from].indent > parent then Block(lines, lines[from].indent, t, from, to)
    else t == Leaf(Null) && from == to <= |lines|
  }

  ghost predicate ItemAt(lines: seq<Line>, indent: int, i: Item)
    decreases i, 2
  {
    && i.at < |lines| && lines[i.at].indent == indent && IsDash(lines[i.at].text)
    && var rest := AfterDash(lines[i.at].text);
       match i
       case Nested(at, value, end) => rest == "" && NestedAt(lines, indent, value, at + 1, end)
       case Plain(at, text, end) => rest == text && text != "" && MappingKey(rest).None? && end == at + 1
       case Keyed(at, key, value, mid, more, end) =>
         && rest != "" && MappingKey(rest).Some? && MappingKey(rest).value.key == key
         && at < mid && ValueAt(lines, indent + 2, MappingKey(rest).value.rest, value, at + 1, mid)
         && MoreAt(lines, indent + 2, key, more, mid, end)
  }

  /** The further keys of an item's mapping, up to a line that is elsewhere or starts with a dash. */
  ghost predicate MoreAt(lines: seq<Line>, indent: int, key: string, more: seq<Entry>, from: nat, to: nat)
    decreases more, 3
  {
    && Chained(more, from, to) && from <= |lines|
    && (forall e :: e in more ==> EntryAt(lines, indent, e) && e.key != key)
    && (to < |lines| ==> lines[to].indent != indent || "- " <= lines[to].text)
  }

  // ----- derivations use up their lines -----

  /** The lines of a tree, from top to bottom. */
  function LinesOf(t: Tree): seq<nat>
    decreases t
  {
    match t
    case Leaf(_) => []
    case Mapping(es) => EntryLines(es)
    case Sequence(items) => ItemLines(items)
  }

  function EntryLines(es: seq<Entry>): seq<nat>
    decreases es
  {
    if es == [] then []
    else EntryLines(es[..|es| - 1]) + [es[|es| - 1].at] + LinesOf(es[|es| - 1].value)
  }

  function LinesOfItem(i: Item): seq<nat>
    decreases i
  {
    match i
    case Nested(at, value, _) => [at] + LinesOf(value)
    case Keyed(at, _, value, _, more, _) => [at] + LinesOf(value) + EntryLines(more)
    case Plain(at, _, _) => [at]
  }

  function ItemLines(items: seq<Item>): seq<nat>
    decreases items
  {
    if items == [] then [] else ItemLines(items[..|items| - 1]) + LinesOfItem(items[|items| - 1])
  }

  function Range(from: nat, to: nat): seq<nat>
    requires from <= to
  {
    seq(to - from, i requires 0 <= i < to - from => from + i)
  }

  /** The tree's lines are exactly those from `from` up to `to`, in order, and none of them is left of
      `indent`. */
  ghost predicate UsesUp(lines: seq<Line>, indent: int, own: seq<nat>, from: nat, to: nat) {
    && from <= to <= |lines| && own == Range(from, to)
    && forall k :: from <= k < to ==> lines[k].indent >= indent
  }

  lemma UsesUpBoth(lines: seq<Line>, indent: int, a: seq<nat>, b: seq<nat>, from: nat, mid: nat, to: nat)
    requires UsesUp(lines, indent, a, from, mid) && UsesUp(lines, indent, b, mid, to)
    ensures UsesUp(lines, indent, a + b, from, to)
  {
    assert Range(from, mid) + Range(mid, to) == Range(from, to);
  }

  lemma UsesUpOne(lines: seq<Line>, indent: int, at: nat)
    requires at < |lines| && lines[at].indent >= indent
    ensures UsesUp(lines, indent, [at], at, at + 1)
  {
    assert Range(at, at + 1) == [at];
  }

  lemma UsesUpLeft(lines: seq<Line>, indent: int, outer: int, own: seq<nat>, from: nat, to: nat)
    requires UsesUp(lines, indent, own, from, to) && outer <= indent
    ensures UsesUp(lines, outer, own, from, to)
  {
  }

  /** A nested block uses up its lines, all of them further in than its parent. */
  lemma {:induction false} BlockUsesUp(lines: seq<Line>, indent: int, t: Tree, from: nat, to: nat)
    requires Block(lines, indent, t, from, to)
    ensures UsesUp(lines, indent, LinesOf(t), from, to)
    decreases t, 3
  {
    match t {
      case Mapping(es) =>
        EntriesUseUp(lines, indent, es, from, to);
      case Sequence(items) =>
        ItemsUseUp(lines, indent, items, from, to);
    }
  }

  lemma {:induction false} ValueUsesUp(lines: seq<Line>, parent: int, rest: string, t: Tree, from: nat, to: nat)
    requires ValueAt(lines, parent, rest, t, from, to)
    ensures UsesUp(lines, parent + 1, LinesOf(t), from, to)
    decreases t, 5
  {
    if rest == "" {
      NestedUsesUp(lines, parent, t, from, to);
    } else {
      assert Range(from, from) == [];
    }
  }

  lemma {:induction false} NestedUsesUp(lines: seq<Line>, parent: int, t: Tree, from: nat, to: nat)
    requires NestedAt(lines, parent, t, from, to)
    ensures UsesUp(lines, parent + 1, LinesOf(t), from, to)
    decreases t, 4
  {
    if from < |lines| && lines[from].indent > parent {
      BlockUsesUp(lines, lines[from].indent, t, from, to);
      UsesUpLeft(lines, lines[from].indent, parent + 1, LinesOf(t), from, to);
    } else {
      assert Range(from, from) == [];
    }
  }

  lemma {:induction false} EntryUsesUp(lines: seq<Line>, indent: int, e: Entry)
    requires EntryAt(lines, indent, e)
    ensures UsesUp(lines, indent, [e.at] + LinesOf(e.value), e.at, e.end)
    decreases e, 2
  {
    var rest := MappingKey(lines[e.at].text).value.rest;
    ValueUsesUp(lines, indent, rest, e.value, e.at + 1, e.end);
    UsesUpLeft(lines, indent + 1, indent, LinesOf(e.value), e.at + 1, e.end);
    UsesUpOne(lines, indent, e.at);
    UsesUpBoth(lines, indent, [e.at], LinesOf(e.value), e.at, e.at + 1, e.end);
  }

  lemma {:induction false} EntriesUseUp(lines: seq<Line>, indent: int, es: seq<Entry>, from: nat, to: nat)
    requires Chained(es, from, to) && (forall e :: e in es ==> EntryAt(lines, indent, e)) && from <= |lines|
    ensures UsesUp(lines, indent, EntryLines(es), from, to)
    decreases es, 2
  {
    if es == [] {
      assert Range(from, from) == [];
    } else {
      var front, last := es[..|es| - 1], es[|es| - 1];
      EntriesUseUp(lines, indent, front, from, last.at);
      EntryUsesUp(lines, indent, last);
      UsesUpBoth(lines, indent, EntryLines(front), [last.at] + LinesOf(last.value), from, last.at, to);
      Assoc(EntryLines(front), [last.at], LinesOf(last.value));
    }
  }

  lemma {:induction false} ItemUsesUp(lines: seq<Line>, indent: int, i: Item)
    requires ItemAt(lines, indent, i)
    ensures UsesUp(lines, indent, LinesOfItem(i), i.at, i.end)
    decreases i, 2
  {
    UsesUpOne(lines, indent, i.at);
    match i {
      case Nested(at, value, end) =>
        NestedUsesUp(lines, indent, value, at + 1, end);
        UsesUpLeft(lines, indent + 1, indent, LinesOf(value), at + 1, end);
        UsesUpBoth(lines, indent, [at], LinesOf(value), at, at + 1, end);
      case Keyed(at, key, value, mid, more, end) =>
        ValueUsesUp(lines, indent + 2, MappingKey(AfterDash(lines[at].text)).value.rest, value, at + 1, mid);
        UsesUpLeft(lines, indent + 3, indent, LinesOf(value), at + 1, mid);
        UsesUpBoth(lines, indent, [at], LinesOf(value), at, at + 1, mid);
        EntriesUseUp(lines, indent + 2, more, mid, end);
        UsesUpLeft(lines, indent + 2, indent, EntryLines(more), mid, end);
        UsesUpBoth(lines, indent, [at] + LinesOf(value), EntryLines(more), at, mid, end);
      case Plain(at, text, end) =>
    }
  }

  lemma {:induction false} ItemsUseUp(lines: seq<Line>, indent: int, items: seq<Item>, from: nat, to: nat)
    requires ChainedItems(items, from, to) && (forall i :: i in items ==> ItemAt(lines, indent, i)) && from <= |lines|
    ensures UsesUp(lines, indent, ItemLines(items), from, to)
    decreases items, 2
  {
    if items == [] {
      assert Range(from, from) == [];
    } else {
      var front, last := items[..|items| - 1], items[|items| - 1];
      ItemsUseUp(lines, indent, front, from, last.at);
      ItemUsesUp(lines, indent, last);
      UsesUpBoth(lines, indent, ItemLines(front), LinesOfItem(last), from, last.at, to);
    }
  }
}
