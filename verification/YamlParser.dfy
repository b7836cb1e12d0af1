/** The recursive-descent parser over the retained lines of a configuration file. It succeeds exactly on
    the lines that have a derivation, and returns the value of that derivation. */
module YamlParser {
  import opened Prelude
  import opened YamlText
  import opened YamlGrammar
  import opened YamlUnique
  import opened YamlRoot
  import opened YamlPrint

  class YamlParser {
    const lines: seq<Line>
    var pos: nat

    constructor (lines: seq<Line>)
      ensures this.lines == lines && pos == 0
    {
      this.lines := lines;
      pos := 0;
    }

    /** A document is an optional "---" and one block. Lines after the block are ignored. */
    method ParseDocument() returns (r: Option<Value>, ghost t: Tree, ghost start: nat)
      requires pos == 0
      modifies this`pos
      ensures pos <= |lines| && start == if lines != [] && lines[0].text == "---" then 1 else 0
      ensures start >= |lines| ==> r == Some(Null)
      ensures start < |lines| && lines[start].text == "---" ==> r.None?
      ensures start < |lines| && r.Some? ==> Block(lines, lines[start].indent, t, start, pos) && r.value == Erase(t)
      ensures start < |lines| && lines[start].text != "---" && r.None? ==> NoBlock(lines, lines[start].indent, start)
      ensures start < |lines| && r.Some? ==> (pos == |lines| <==> Uniform(lines, start))
      ensures start < |lines| && lines[start].indent == 0 && !IsDash(lines[start].text) && r.Some? ==> pos == |lines|
      ensures forall d: Doc, n: nat | IsBlock(d) && Writable(d) && Writes(lines, d, n) :: r == Some(ValueOf(d))
    {
      forall d: Doc, n: nat | IsBlock(d) && Writable(d) && Writes(lines, d, n)
        ensures lines != [] && lines[0].indent == n && lines[0].text != "---"
        ensures forall t, to: nat | Block(lines, n, t, 0, to) :: Erase(t) == ValueOf(d)
        ensures !NoBlock(lines, n, 0)
      {
        WrittenStarts(lines, d, n);
        PrintedReadsBack(lines, d, n);
      }
      start, t := 0, Leaf(Null);
      if |lines| == 0 {
        return Some(Null), t, start;
      }
      if lines[0].text == "---" {
        pos, start := 1, 1;
      }
      if pos < |lines| && lines[pos].text == "---" {
        return None, t, start;
      }
      if pos >= |lines| {
        return Some(Null), t, start;
      }
      r, t := ParseBlock(lines[pos].indent);
      if r.Some? {
        RootUsesAll(lines, t, start, pos);
        FirstLine(lines, lines[start].indent, t, start, pos);
      }
    }

    method ParseBlock(indent: int) returns (r: Option<Value>, ghost t: Tree)
      requires pos <= |lines|
      modifies this`pos
      ensures old(pos) <= pos <= |lines|
      ensures old(pos) < |lines| && r.Some? ==> Block(lines, indent, t, old(pos), pos) && r.value == Erase(t)
      ensures old(pos) < |lines| && r.None? ==> NoBlock(lines, indent, old(pos))
      ensures old(pos) == |lines| ==> r == Some(Null) && pos == old(pos)
      decreases |lines| - pos, 2
    {
      t := Leaf(Null);
      if pos >= |lines| {
        return Some(Null), t;
      }
      if lines[pos].indent != indent {
        Misplaced(lines, indent, pos);
        return None, t;
      }
      if "- " <= lines[pos].text || lines[pos].text == "-" {
        r, t := ParseSequence(indent);
      } else {
        r, t := ParseMapping(indent);
      }
    }

    method ParseMapping(indent: int) returns (r: Option<Value>, ghost t: Tree)
      requires pos < |lines| && !IsDash(lines[pos].text) && lines[pos].indent == indent
      modifies this`pos
      ensures old(pos) <= pos <= |lines|
      ensures r.Some? ==> Block(lines, indent, t, old(pos), pos) && r.value == Erase(t)
      ensures r.None? ==> NoBlock(lines, indent, old(pos))
      decreases |lines| - pos, 1
    {
      var out: map<string, Value> := map[];
      ghost var es: seq<Entry> := [];
      ghost var from := pos;
      while pos < |lines|
        invariant from <= pos <= |lines| && (es == [] ==> pos == from)
        invariant Entries(lines, indent, es, from, pos) && out == EraseEntries(es) && (es != [] ==> indent != -1)
        decreases |lines| - pos
      {
        var line := lines[pos];
        if line.indent == -1 {
          NoMapping(lines, indent, es, from, pos);
          return None, Leaf(Null);
        }
        if line.indent < indent {
          break;
        }
        if line.indent > indent || "- " <= line.text || line.text == "-" {
          NoMapping(lines, indent, es, from, pos);
          return None, Leaf(Null);
        }
        var split := TryMappingKey(line.text);
        if split.None? {
          NoMapping(lines, indent, es, from, pos);
          return None, Leaf(Null);
        }
        ghost var at := pos;
        pos := pos + 1;
        var value, tree := ParseValue(indent, split.value.rest);
        if value.None? || split.value.key in out {
          NoMapping(lines, indent, es, from, at);
          return None, Leaf(Null);
        }
        ghost var e := Entry(at, split.value.key, tree, pos);
        AddEntry(lines, indent, es, from, e);
        out := out[split.value.key := value.value];
        es := es + [e];
      }
      r, t := Some(Map(out)), Mapping(es);
    }

    method ParseSequence(indent: int) returns (r: Option<Value>, ghost t: Tree)
      requires pos < |lines| && IsDash(lines[pos].text) && lines[pos].indent == indent
      modifies this`pos
      ensures old(pos) <= pos <= |lines|
      ensures r.Some? ==> Block(lines, indent, t, old(pos), pos) && r.value == Erase(t)
      ensures r.None? ==> NoBlock(lines, indent, old(pos))
      decreases |lines| - pos, 1
    {
      var out: seq<Value> := [];
      ghost var items: seq<Item> := [];
      ghost var from := pos;
      while pos < |lines|
        invariant from <= pos <= |lines| && (items == [] ==> pos == from)
        invariant Items(lines, indent, items, from, pos) && out == EraseItems(items) && (items != [] ==> indent != -1)
        decreases |lines| - pos
      {
        var line := lines[pos];
        if line.indent == -1 {
          NoSequence(lines, indent, items, from, pos);
          return None, Leaf(Null);
        }
        if line.indent < indent {
          break;
        }
        if line.indent != indent {
          NoSequence(lines, indent, items, from, pos);
          return None, Leaf(Null);
        }
        if !("- " <= line.text) && line.text != "-" {
          break;
        }
        ghost var at := pos;
        var rest := if line.text == "-" then "" else TrimLeft(line.text[1..], IsSpaceChar);
        pos := pos + 1;
        var value, item := ParseItem(indent, rest);
        if value.None? {
          NoSequence(lines, indent, items, from, at);
          return None, Leaf(Null);
        }
        AddItem(lines, indent, items, from, item);
        out := out + [value.value];
        items := items + [item];
      }
      r, t := Some(List(out)), Sequence(items);
    }

    /** The three kinds of sequence item, after the dash. */
    method ParseItem(indent: int, rest: string) returns (r: Option<Value>, ghost item: Item)
      requires 0 < pos <= |lines| && indent != -1 && lines[pos - 1].indent == indent
      requires IsDash(lines[pos - 1].text) && rest == AfterDash(lines[pos - 1].text)
      modifies this`pos
      ensures old(pos) <= pos <= |lines|
      ensures r.Some? ==> ItemAt(lines, indent, item) && item.at == old(pos) - 1 && item.end == pos
      ensures r.Some? ==> r.value == EraseItem(item)
      ensures r.None? ==> NoItemAt(lines, indent, old(pos) - 1)
      decreases |lines| - pos, 6
    {
      ghost var at := pos - 1;
      item := Plain(at, rest, pos);
      if rest == "" {
        var value, tree := ParseNestedBlock(indent);
        return value, Nested(at, tree, pos);
      }
      var split := TryMappingKey(rest);
      if split.None? {
        return Some(Scalar(rest)), item;
      }
      r, item := ParseInlineMapping(indent, split.value);
    }

    /** A mapping whose first key is on the line of the dash. */
    method ParseInlineMapping(indent: int, first: KeyRest) returns (r: Option<Value>, ghost item: Item)
      requires 0 < pos <= |lines| && indent != -1 && lines[pos - 1].indent == indent && IsDash(lines[pos - 1].text)
      requires AfterDash(lines[pos - 1].text) != "" && MappingKey(AfterDash(lines[pos - 1].text)) == Some(first)
      modifies this`pos
      ensures old(pos) <= pos <= |lines|
      ensures r.Some? ==> ItemAt(lines, indent, item) && item.at == old(pos) - 1 && item.end == pos
      ensures r.Some? ==> r.value == EraseItem(item)
      ensures r.None? ==> NoItemAt(lines, indent, old(pos) - 1)
      decreases |lines| - pos, 5
    {
      var childIndent := indent + 2;
      ghost var at := pos - 1;
      item := Plain(at, "", pos);
      var value, tree := ParseValue(childIndent, first.rest);
      if value.None? {
        return None, item;
      }
      ghost var mid := pos;
      var more, es := ParseMore(childIndent, first.key);
      if more.None? {
        NoKeyed(lines, indent, first, tree, at, mid);
        return None, item;
      }
      r := Some(Map(map[first.key := value.value] + more.value));
      item := Keyed(at, first.key, tree, mid, es, pos);
    }

    /** The further keys of such a mapping. */
    method ParseMore(indent: int, key: string) returns (r: Option<map<string, Value>>, ghost es: seq<Entry>)
      requires pos <= |lines| && indent != -1
      modifies this`pos
      ensures old(pos) <= pos <= |lines|
      ensures r.Some? ==> MoreAt(lines, indent, key, es, old(pos), pos) && r.value == EraseEntries(es)
      ensures r.None? ==> NoMoreAt(lines, indent, key, old(pos))
      decreases |lines| - pos, 4, 1
    {
      var out: map<string, Value> := map[];
      es := [];
      ghost var from := pos;
      while pos < |lines| && lines[pos].indent == indent && !("- " <= lines[pos].text)
        invariant from <= pos <= |lines| && Entries(lines, indent, es, from, pos) && out == EraseEntries(es)
        invariant forall e :: e in es ==> e.key != key
        decreases |lines| - pos
      {
        var split := TryMappingKey(lines[pos].text);
        DashIsNoKey();
        if split.None? {
          NoFurther(lines, indent, key, es, from, pos);
          return None, es;
        }
        ghost var at := pos;
        pos := pos + 1;
        var value, tree := ParseValue(indent, split.value.rest);
        if value.None? || split.value.key == key || split.value.key in out {
          NoFurther(lines, indent, key, es, from, at);
          return None, es;
        }
        ghost var e := Entry(at, split.value.key, tree, pos);
        AddEntry(lines, indent, es, from, e);
        out := out[split.value.key := value.value];
        es := es + [e];
      }
      r := Some(out);
    }

    /** Whatever follows "key:" on the same line, or the block below it. */
    method ParseValue(parentIndent: int, rest: string) returns (r: Option<Value>, ghost t: Tree)
      requires pos <= |lines|
      modifies this`pos
      ensures old(pos) <= pos <= |lines|
      ensures r.Some? ==> ValueAt(lines, parentIndent, rest, t, old(pos), pos) && r.value == Erase(t)
      ensures r.None? ==> NoValue(lines, parentIndent, rest, old(pos))
      decreases |lines| - pos, 4
    {
      if rest == "" {
        r, t := ParseNestedBlock(parentIndent);
        return;
      }
      if rest == "{}" {
        r := Some(Map(map[]));
      } else if rest == "[]" {
        r := Some(List([]));
      } else if |rest| >= 2 && rest[0] == '[' && rest[|rest| - 1] == ']' {
        var items := ParseFlowSequence(rest[1..|rest| - 1]);
        r := if items.None? then None else Some(List(Scalars(items.value)));
      } else {
        r := Some(Scalar(rest));
      }
      t := Leaf(if r.Some? then r.value else Null);
    }

    /** The block on the following lines when they are further in, or else null. */
    method ParseNestedBlock(parentIndent: int) returns (r: Option<Value>, ghost t: Tree)
      requires pos <= |lines|
      modifies this`pos
      ensures old(pos) <= pos <= |lines|
      ensures r.Some? ==> NestedAt(lines, parentIndent, t, old(pos), pos) && r.value == Erase(t)
      ensures r.None? ==> NoNested(lines, parentIndent, old(pos))
      decreases |lines| - pos, 3
    {
      if pos >= |lines| || lines[pos].indent <= parentIndent {
        return Some(Null), Leaf(Null);
      }
      r, t := ParseBlock(lines[pos].indent);
    }
  }
}
