/** When the block at the root of a configuration file takes up the whole file. The parser stops after that
    block and ignores what follows it. */
module YamlRoot {
  import opened Prelude
  import opened YamlText
  import opened YamlGrammar
  import opened YamlUnique

  /** Every line from `from` on is at the indent of the first or further in, and those at its indent are all
      items or all keys, as the first is. */
  predicate Uniform(lines: seq<Line>, from: nat)
    requires from < |lines|
  {
    forall k :: from < k < |lines| ==>
      && lines[k].indent >= lines[from].indent
      && (lines[k].indent == lines[from].indent ==> (IsDash(lines[k].text) <==> IsDash(lines[from].text)))
  }

  /** The lines of a stretch that are at `indent` are items, or none of them is. */
  predicate OnlyAt(lines: seq<Line>, indent: int, items: bool, from: nat, to: nat)
    requires to <= |lines|
  {
    forall k :: from <= k < to && lines[k].indent == indent ==> IsDash(lines[k].text) == items
  }

  lemma {:induction false} EntriesAtIndent(lines: seq<Line>, indent: int, es: seq<Entry>, from: nat, to: nat)
    requires Chained(es, from, to) && (forall e :: e in es ==> EntryAt(lines, indent, e)) && from <= |lines|
    ensures to <= |lines| && OnlyAt(lines, indent, false, from, to)
    decreases |es|
  {
    if es != [] {
      var last := es[|es| - 1];
      assert last in es && EntryAt(lines, indent, last);
      EntriesAtIndent(lines, indent, es[..|es| - 1], from, last.at);
      ValueUsesUp(lines, indent, MappingKey(lines[last.at].text).value.rest, last.value, last.at + 1, last.end);
    }
  }

  lemma {:induction false} ItemAtIndent(lines: seq<Line>, indent: int, i: Item)
    requires ItemAt(lines, indent, i)
    ensures i.end <= |lines| && OnlyAt(lines, indent, true, i.at, i.end)
  {
    match i {
      case Nested(at, value, end) =>
        NestedUsesUp(lines, indent, value, at + 1, end);
      case Keyed(at, key, value, mid, more, end) =>
        ValueUsesUp(lines, indent + 2, MappingKey(AfterDash(lines[at].text)).value.rest, value, at + 1, mid);
        EntriesUseUp(lines, indent + 2, more, mid, end);
      case Plain(at, text, end) =>
    }
  }

  lemma {:induction false} ItemsAtIndent(lines: seq<Line>, indent: int, items: seq<Item>, from: nat, to: nat)
    requires ChainedItems(items, from, to) && (forall i :: i in items ==> ItemAt(lines, indent, i)) && from <= |lines|
    ensures to <= |lines| && OnlyAt(lines, indent, true, from, to)
    decreases |items|
  {
    if items != [] {
      var last := items[|items| - 1];
      ItemsAtIndent(lines, indent, items[..|items| - 1], from, last.at);
      ItemAtIndent(lines, indent, last);
    }
  }

  /** Inside a block the lines at its own indent all start its entries, or all its items. */
  lemma BlockAtIndent(lines: seq<Line>, indent: int, t: Tree, from: nat, to: nat)
    requires Block(lines, indent, t, from, to)
    ensures from < to <= |lines| && OnlyAt(lines, indent, t.Sequence?, from, to)
  {
    match t {
      case Mapping(es) =>
        ChainIndex(es, from, to, 0);
        EntriesAtIndent(lines, indent, es, from, to);
      case Sequence(items) =>
        ItemIndex(items, from, to, 0);
        ItemsAtIndent(lines, indent, items, from, to);
    }
  }

  /** The root block leaves no line over if and only if the lines are uniform. */
  lemma RootUsesAll(lines: seq<Line>, t: Tree, from: nat, to: nat)
    requires from < |lines| && Block(lines, lines[from].indent, t, from, to)
    ensures to == |lines| <==> Uniform(lines, from)
    ensures from < to <= |lines| && LinesOf(t) == Range(from, to)
  {
    var indent := lines[from].indent;
    BlockUsesUp(lines, indent, t, from, to);
    FirstLine(lines, indent, t, from, to);
    BlockAtIndent(lines, indent, t, from, to);
  }

  // ----- no key twice -----

  lemma {:induction false} ChainedDistinct(es: seq<Entry>, from: nat, to: nat)
    requires Chained(es, from, to)
    ensures forall e, f :: e in es && f in es && e.key == f.key ==> e == f
  {
    if es != [] {
      var front, last := es[..|es| - 1], es[|es| - 1];
      ChainedDistinct(front, from, last.at);
      assert forall e :: e in es ==> e in front || e == last;
    }
  }

  /** A line at the indent of a mapping is the line of one of its keys. */
  lemma {:induction false} OwnLine(lines: seq<Line>, indent: int, es: seq<Entry>, from: nat, to: nat, k: nat)
    returns (e: Entry)
    requires Chained(es, from, to) && (forall e :: e in es ==> EntryAt(lines, indent, e))
    requires from <= k < to <= |lines| && lines[k].indent == indent
    ensures e in es && e.at == k
  {
    var front, last := es[..|es| - 1], es[|es| - 1];
    e := last;
    if k < last.at {
      e := OwnLine(lines, indent, front, from, last.at, k);
    } else if k > last.at {
      assert EntryAt(lines, indent, last);
      ValueUsesUp(lines, indent, MappingKey(lines[last.at].text).value.rest, last.value, last.at + 1, last.end);
    }
  }

  /** Two lines at the indent of a mapping never have the same key. */
  lemma MappingKeysDiffer(lines: seq<Line>, indent: int, t: Tree, from: nat, to: nat, i: nat, j: nat)
    requires Block(lines, indent, t, from, to) && t.Mapping? && from <= i < j < to <= |lines|
    requires lines[i].indent == lines[j].indent == indent
    ensures MappingKey(lines[i].text).Some? && MappingKey(lines[j].text).Some?
    ensures MappingKey(lines[i].text).value.key != MappingKey(lines[j].text).value.key
  {
    var e := OwnLine(lines, indent, t.entries, from, to, i);
    var f := OwnLine(lines, indent, t.entries, from, to, j);
    ChainedDistinct(t.entries, from, to);
    assert EntryAt(lines, indent, e) && EntryAt(lines, indent, f);
  }

  /** Nor do the first key of a mapping on the line of a dash and a further one two columns in. */
  lemma ItemKeysDiffer(lines: seq<Line>, indent: int, i: Item, j: nat)
    requires ItemAt(lines, indent, i) && i.Keyed? && i.mid <= j < i.end <= |lines|
    requires lines[j].indent == indent + 2
    ensures MappingKey(lines[j].text).Some? && MappingKey(AfterDash(lines[i.at].text)).Some?
    ensures MappingKey(lines[j].text).value.key != MappingKey(AfterDash(lines[i.at].text)).value.key
  {
    var e := OwnLine(lines, indent + 2, i.more, i.mid, i.end, j);
    assert EntryAt(lines, indent + 2, e);
  }

  /** At the left margin a mapping always takes up the whole file. */
  lemma RootMappingUsesAll(lines: seq<Line>, t: Tree, from: nat, to: nat)
    requires Block(lines, 0, t, from, to) && t.Mapping?
    ensures to == |lines| && LinesOf(t) == Range(from, |lines|)
  {
    BlockUsesUp(lines, 0, t, from, to);
  }

  /** "- a" followed by "b: c" is accepted, and the second line ignored. */
  lemma TrailingLineIgnored()
    ensures var lines := [Line(1, 0, "- a"), Line(2, 0, "b: c")];
            Block(lines, 0, Sequence([Plain(0, "a", 1)]), 0, 1)
  {
    var lines := [Line(1, 0, "- a"), Line(2, 0, "b: c")];
    var item := Plain(0, "a", 1);
    assert IsDash("- a") && "- a"[1..] == " a" && " a"[1..] == "a";
    assert AfterDash("- a") == "a";
    assert BareKey("a", 1) == None;
    assert ItemAt(lines, 0, item);
    assert [item][..0] == [];
    assert ChainedItems([item], 0, 1);
    assert "b: c"[0] != '-';
  }

  /** So is "  a: x" followed by "b: c": a mapping that starts further in ends at the margin. */
  lemma IndentedRootIgnored()
    ensures var lines := [Line(1, 2, "a: x"), Line(2, 0, "b: c")];
            Block(lines, 2, Mapping([Entry(0, "a", Leaf(Scalar("x")), 1)]), 0, 1)
  {
    var lines := [Line(1, 2, "a: x"), Line(2, 0, "b: c")];
    var entry := Entry(0, "a", Leaf(Scalar("x")), 1);
    KeyOfAX();
    assert "a: x"[0] != '-';
    assert ValueAt(lines, 2, "x", entry.value, 1, 1);
    assert EntryAt(lines, 2, entry);
    assert [entry][..0] == [];
    assert Chained([entry], 0, 1);
  }

  lemma KeyOfAX()
    ensures MappingKey("a: x") == Some(KeyRest("a", "x"))
  {
    var line := "a: x";
    assert !EndsKey(line, 0) && EndsKey(line, 1);
    assert line[..1] == "a" && TrimRight("a", IsBlank) == "a";
    assert line[2..] == " x" && " x"[1..] == "x" && TrimLeft("x", IsBlank) == "x";
    assert BareKey(line, 0) == BareKey(line, 1);
  }
}
