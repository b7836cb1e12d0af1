/** A list of lines has at most one derivation; and what cannot be derived when a parser gets stuck. */
module YamlUnique {
  import opened Prelude
  import opened YamlText
  import opened YamlGrammar

  // ----- there is at most one derivation -----

  lemma {:induction false} ChainIndex(es: seq<Entry>, from: nat, to: nat, k: nat)
    requires Chained(es, from, to) && k < |es|
    ensures es[k].at == if k == 0 then from else es[k - 1].end
    ensures forall j :: 0 <= j < k ==> es[j].key != es[k].key
    ensures from <= es[k].at < es[k].end <= to
  {
    if k < |es| - 1 {
      ChainIndex(es[..|es| - 1], from, es[|es| - 1].at, k);
    } else {
      if k > 0 {
        ChainIndex(es[..k], from, es[k].at, k - 1);
      }
      forall j | 0 <= j < k ensures es[j].key != es[k].key {
        assert es[j] in es[..k];
      }
    }
  }

  lemma {:induction false} ItemIndex(items: seq<Item>, from: nat, to: nat, k: nat)
    requires ChainedItems(items, from, to) && k < |items|
    ensures items[k].at == if k == 0 then from else items[k - 1].end
    ensures from <= items[k].at < items[k].end <= to
  {
    if k < |items| - 1 {
      ItemIndex(items[..|items| - 1], from, items[|items| - 1].at, k);
    } else if k > 0 {
      ItemIndex(items[..k], from, items[k].at, k - 1);
    }
  }

  lemma {:induction false} UniqueValue(lines: seq<Line>, parent: int, rest: string, t: Tree, u: Tree, from: nat,
                                       to: nat, to': nat)
    requires ValueAt(lines, parent, rest, t, from, to) && ValueAt(lines, parent, rest, u, from, to')
    ensures t == u && to == to'
    decreases t, 5
  {
    if rest == "" {
      UniqueNested(lines, parent, t, u, from, to, to');
    }
  }

  lemma {:induction false} UniqueNested(lines: seq<Line>, parent: int, t: Tree, u: Tree, from: nat, to: nat, to': nat)
    requires NestedAt(lines, parent, t, from, to) && NestedAt(lines, parent, u, from, to')
    ensures t == u && to == to'
    decreases t, 4
  {
    if from < |lines| && lines[from].indent > parent {
      UniqueBlock(lines, lines[from].indent, t, u, from, to, to');
    }
  }

  lemma {:induction false} UniqueEntry(lines: seq<Line>, indent: int, e: Entry, f: Entry)
    requires EntryAt(lines, indent, e) && EntryAt(lines, indent, f) && e.at == f.at
    ensures e == f
    decreases e, 2
  {
    UniqueValue(lines, indent, MappingKey(lines[e.at].text).value.rest, e.value, f.value, e.at + 1, e.end, f.end);
  }

  /** The shorter of two lists of entries from the same line starts the longer one. */
  lemma {:induction false} EntriesPrefix(lines: seq<Line>, indent: int, es: seq<Entry>, fs: seq<Entry>, from: nat,
                                         to: nat, to': nat)
    requires Chained(es, from, to) && Chained(fs, from, to') && |es| <= |fs|
    requires forall e :: e in es ==> EntryAt(lines, indent, e)
    requires forall f :: f in fs ==> EntryAt(lines, indent, f)
    ensures es <= fs
    decreases es, 2
  {
    if es != [] {
      var n := |es| - 1;
      EntriesPrefix(lines, indent, es[..n], fs, from, es[n].at, to');
      ChainIndex(es, from, to, n);
      ChainIndex(fs, from, to', n);
      assert n > 0 ==> es[..n][n - 1] == fs[n - 1];
      UniqueEntry(lines, indent, es[n], fs[n]);
    }
  }

  /** A list of entries that stops before the line of another entry cannot be the shorter one. */
  lemma UniqueEntries(lines: seq<Line>, indent: int, es: seq<Entry>, fs: seq<Entry>, from: nat, to: nat, to': nat)
    requires Chained(es, from, to) && Chained(fs, from, to') && |es| <= |fs| && es <= fs
    requires forall f :: f in fs ==> EntryAt(lines, indent, f)
    requires to < |lines| ==> lines[to].indent != indent || IsDash(lines[to].text)
    ensures es == fs && to == to'
  {
    ChainEnd(es, from, to);
    ChainEnd(fs, from, to');
    if |es| < |fs| {
      ChainIndex(fs, from, to', |es|);
      EntryLine(lines, indent, fs, |es|);
    }
  }

  lemma EntryLine(lines: seq<Line>, indent: int, es: seq<Entry>, k: nat)
    requires k < |es| && forall e :: e in es ==> EntryAt(lines, indent, e)
    ensures es[k].at < |lines| && lines[es[k].at].indent == indent && !IsDash(lines[es[k].at].text)
  {
    assert es[k] in es && EntryAt(lines, indent, es[k]);
  }

  lemma ItemLine(lines: seq<Line>, indent: int, xs: seq<Item>, k: nat)
    requires k < |xs| && forall i :: i in xs ==> ItemAt(lines, indent, i)
    ensures xs[k].at < |lines| && lines[xs[k].at].indent == indent && IsDash(lines[xs[k].at].text)
  {
    assert xs[k] in xs && ItemAt(lines, indent, xs[k]);
  }

  lemma ChainEnd(es: seq<Entry>, from: nat, to: nat)
    requires Chained(es, from, to)
    ensures to == if es == [] then from else es[|es| - 1].end
  {
  }

  lemma {:induction false} BothEntries(lines: seq<Line>, indent: int, es: seq<Entry>, fs: seq<Entry>, from: nat,
                                       to: nat, to': nat)
    requires Chained(es, from, to) && Chained(fs, from, to')
    requires forall e :: e in es ==> EntryAt(lines, indent, e)
    requires forall f :: f in fs ==> EntryAt(lines, indent, f)
    requires to < |lines| ==> lines[to].indent != indent || IsDash(lines[to].text)
    requires to' < |lines| ==> lines[to'].indent != indent || IsDash(lines[to'].text)
    ensures es == fs && to == to'
    decreases es, 3
  {
    if |es| <= |fs| {
      EntriesPrefix(lines, indent, es, fs, from, to, to');
      UniqueEntries(lines, indent, es, fs, from, to, to');
    } else {
      EntriesSuffix(lines, indent, es, fs, from, to, to');
    }
  }

  /** The same with the lists the other way round, by going down the longer one. */
  lemma {:induction false} EntriesSuffix(lines: seq<Line>, indent: int, es: seq<Entry>, fs: seq<Entry>, from: nat,
                                         to: nat, to': nat)
    requires Chained(es, from, to) && Chained(fs, from, to') && |es| > |fs|
    requires forall e :: e in es ==> EntryAt(lines, indent, e)
    requires forall f :: f in fs ==> EntryAt(lines, indent, f)
    requires to' < |lines| ==> lines[to'].indent != indent || IsDash(lines[to'].text)
    ensures false
    decreases es, 2
  {
    var front, last := es[..|es| - 1], es[|es| - 1];
    if |front| > |fs| {
      EntriesSuffix(lines, indent, front, fs, from, last.at, to');
    } else {
      EntriesPrefix(lines, indent, front, fs, from, last.at, to');
      ChainEnd(front, from, last.at);
      ChainEnd(fs, from, to');
      EntryLine(lines, indent, es, |es| - 1);
    }
  }

  lemma {:induction false} UniqueItem(lines: seq<Line>, indent: int, i: Item, j: Item)
    requires ItemAt(lines, indent, i) && ItemAt(lines, indent, j) && i.at == j.at
    ensures i == j
    decreases i, 2
  {
    match i {
      case Nested(at, value, end) =>
        UniqueNested(lines, indent, value, j.value, at + 1, end, j.end);
      case Plain(at, text, end) =>
      case Keyed(at, key, value, mid, more, end) =>
        UniqueValue(lines, indent + 2, MappingKey(AfterDash(lines[at].text)).value.rest, value, j.value, at
                    + 1, mid, j.mid);
        BothEntries(lines, indent + 2, more, j.more, mid, end, j.end);
    }
  }

  lemma {:induction false} ItemsPrefix(lines: seq<Line>, indent: int, xs: seq<Item>, ys: seq<Item>, from: nat, to: nat,
                                       to': nat)
    requires ChainedItems(xs, from, to) && ChainedItems(ys, from, to') && |xs| <= |ys|
    requires forall i :: i in xs ==> ItemAt(lines, indent, i)
    requires forall j :: j in ys ==> ItemAt(lines, indent, j)
    ensures xs <= ys
    decreases xs, 2
  {
    if xs != [] {
      var n := |xs| - 1;
      ItemsPrefix(lines, indent, xs[..n], ys, from, xs[n].at, to');
      ItemIndex(xs, from, to, n);
      ItemIndex(ys, from, to', n);
      assert n > 0 ==> xs[..n][n - 1] == ys[n - 1];
      UniqueItem(lines, indent, xs[n], ys[n]);
    }
  }

  lemma ItemsEnd(items: seq<Item>, from: nat, to: nat)
    requires ChainedItems(items, from, to)
    ensures to == if items == [] then from else items[|items| - 1].end
  {
  }

  /** A line at which a sequence at `indent` cannot go on. */
  predicate NoItem(lines: seq<Line>, indent: int, to: nat) {
    to < |lines| ==> lines[to].indent != indent || !IsDash(lines[to].text)
  }

  lemma {:induction false} BothItems(lines: seq<Line>, indent: int, xs: seq<Item>, ys: seq<Item>, from: nat, to: nat,
                                     to': nat)
    requires ChainedItems(xs, from, to) && ChainedItems(ys, from, to')
    requires forall i :: i in xs ==> ItemAt(lines, indent, i)
    requires forall j :: j in ys ==> ItemAt(lines, indent, j)
    requires NoItem(lines, indent, to) && NoItem(lines, indent, to')
    ensures xs == ys && to == to'
    decreases xs, 3
  {
    ItemsEnd(xs, from, to);
    ItemsEnd(ys, from, to');
    if |xs| <= |ys| {
      ItemsPrefix(lines, indent, xs, ys, from, to, to');
      if |xs| < |ys| {
        ItemIndex(ys, from, to', |xs|);
        ItemLine(lines, indent, ys, |xs|);
      }
    } else {
      ItemsSuffix(lines, indent, xs, ys, from, to, to');
    }
  }

  lemma {:induction false} ItemsSuffix(lines: seq<Line>, indent: int, xs: seq<Item>, ys: seq<Item>, from: nat, to: nat,
                                       to': nat)
    requires ChainedItems(xs, from, to) && ChainedItems(ys, from, to') && |xs| > |ys|
    requires forall i :: i in xs ==> ItemAt(lines, indent, i)
    requires forall j :: j in ys ==> ItemAt(lines, indent, j)
    requires NoItem(lines, indent, to')
    ensures false
    decreases xs, 2
  {
    var front, last := xs[..|xs| - 1], xs[|xs| - 1];
    if |front| > |ys| {
      ItemsSuffix(lines, indent, front, ys, from, last.at, to');
    } else {
      ItemsPrefix(lines, indent, front, ys, from, last.at, to');
      ItemsEnd(front, from, last.at);
      ItemsEnd(ys, from, to');
      ItemLine(lines, indent, xs, |xs| - 1);
    }
  }

  /** The lines from `from` on make up at most one block. */
  lemma {:induction false} UniqueBlock(lines: seq<Line>, indent: int, t: Tree, u: Tree, from: nat, to: nat, to': nat)
    requires Block(lines, indent, t, from, to) && Block(lines, indent, u, from, to')
    ensures t == u && to == to'
    decreases t, 3
  {
    if t.Mapping? && u.Mapping? {
      BothEntries(lines, indent, t.entries, u.entries, from, to, to');
    } else if t.Sequence? && u.Sequence? {
      BothItems(lines, indent, t.items, u.items, from, to, to');
    } else {
      FirstLine(lines, indent, t, from, to);
      FirstLine(lines, indent, u, from, to');
    }
  }

  /** The first line tells a mapping from a sequence. */
  lemma FirstLine(lines: seq<Line>, indent: int, t: Tree, from: nat, to: nat)
    requires Block(lines, indent, t, from, to)
    ensures lines[from].indent == indent && (t.Sequence? <==> IsDash(lines[from].text))
  {
    match t {
      case Mapping(es) =>
        ChainIndex(es, from, to, 0);
        EntryLine(lines, indent, es, 0);
      case Sequence(items) =>
        ItemIndex(items, from, to, 0);
        ItemLine(lines, indent, items, 0);
    }
  }

  // ----- partial derivations -----

  /** Entries read so far, up to line `to`. */
  ghost predicate Entries(lines: seq<Line>, indent: int, es: seq<Entry>, from: nat, to: nat) {
    Chained(es, from, to) && to <= |lines| && forall e :: e in es ==> EntryAt(lines, indent, e)
  }

  ghost predicate Items(lines: seq<Line>, indent: int, items: seq<Item>, from: nat, to: nat) {
    ChainedItems(items, from, to) && to <= |lines| && forall i :: i in items ==> ItemAt(lines, indent, i)
  }

  lemma AddEntry(lines: seq<Line>, indent: int, es: seq<Entry>, from: nat, e: Entry)
    requires Entries(lines, indent, es, from, e.at) && EntryAt(lines, indent, e)
    requires e.at < e.end <= |lines| && e.key !in EraseEntries(es)
    ensures Entries(lines, indent, es + [e], from, e.end)
    ensures EraseEntries(es + [e]) == EraseEntries(es)[e.key := Erase(e.value)]
  {
    assert (es + [e])[..|es|] == es;
    KeysOf(es);
  }

  lemma AddItem(lines: seq<Line>, indent: int, items: seq<Item>, from: nat, i: Item)
    requires Items(lines, indent, items, from, i.at) && ItemAt(lines, indent, i) && i.at < i.end <= |lines|
    ensures Items(lines, indent, items + [i], from, i.end)
    ensures EraseItems(items + [i]) == EraseItems(items) + [EraseItem(i)]
  {
    assert (items + [i])[..|items|] == items;
  }

  lemma {:induction false} KeysOf(es: seq<Entry>)
    ensures forall e :: e in es ==> e.key in EraseEntries(es)
    ensures forall k :: k in EraseEntries(es) ==> exists e :: e in es && e.key == k
    decreases |es|
  {
    if es != [] {
      var front, last := es[..|es| - 1], es[|es| - 1];
      KeysOf(front);
      assert es == front + [last];
      forall k | k in EraseEntries(es) ensures exists e :: e in es && e.key == k {
        if k != last.key {
          var e :| e in front && e.key == k;
          assert e in es;
        } else {
          assert last in es;
        }
      }
    }
  }

  /** Every derivation of a mapping that starts where these entries do goes on from them. */
  lemma Continues(lines: seq<Line>, indent: int, es: seq<Entry>, fs: seq<Entry>, from: nat, at: nat, to: nat)
    requires Entries(lines, indent, es, from, at) && Entries(lines, indent, fs, from, to)
    requires to < |lines| ==> lines[to].indent != indent || IsDash(lines[to].text)
    ensures (es == fs && to == at)
            || (|es| < |fs| && fs[|es|].at == at && EntryAt(lines, indent, fs[|es|])
               && fs[|es|].key !in EraseEntries(es))
  {
    if |es| > |fs| {
      EntriesSuffix(lines, indent, es, fs, from, at, to);
    } else {
      EntriesPrefix(lines, indent, es, fs, from, at, to);
      ChainEnd(es, from, at);
      ChainEnd(fs, from, to);
      if |es| < |fs| {
        var n := |es|;
        ChainIndex(fs, from, to, n);
        assert fs[n] in fs;
        KeysOf(es);
        forall e | e in es ensures e.key != fs[n].key {
          var j :| 0 <= j < n && es[j] == e;
          assert fs[j] == es[j];
        }
      } else {
        assert es == fs;
      }
    }
  }

  lemma ContinuesItems(lines: seq<Line>, indent: int, xs: seq<Item>, ys: seq<Item>, from: nat, at: nat, to: nat)
    requires Items(lines, indent, xs, from, at) && Items(lines, indent, ys, from, to) && NoItem(lines, indent, to)
    ensures (xs == ys && to == at) || (|xs| < |ys| && ys[|xs|].at == at && ItemAt(lines, indent, ys[|xs|]))
  {
    if |xs| > |ys| {
      ItemsSuffix(lines, indent, xs, ys, from, at, to);
    } else {
      ItemsPrefix(lines, indent, xs, ys, from, at, to);
      ItemsEnd(xs, from, at);
      ItemsEnd(ys, from, to);
      if |xs| < |ys| {
        ItemIndex(ys, from, to, |xs|);
        assert ys[|xs|] in ys;
      } else {
        assert xs == ys;
      }
    }
  }

  /** No block starts on line `from`. */
  ghost predicate NoBlock(lines: seq<Line>, indent: int, from: nat) {
    forall t, to :: !Block(lines, indent, t, from, to)
  }

  ghost predicate NoValue(lines: seq<Line>, parent: int, rest: string, from: nat) {
    forall t, to :: !ValueAt(lines, parent, rest, t, from, to)
  }

  ghost predicate NoNested(lines: seq<Line>, parent: int, from: nat) {
    forall t, to :: !NestedAt(lines, parent, t, from, to)
  }

  /** No entry on line `at` can go on from these. */
  ghost predicate NoEntry(lines: seq<Line>, indent: int, es: seq<Entry>, at: nat) {
    forall e: Entry :: e.at == at && EntryAt(lines, indent, e) ==> e.key in EraseEntries(es)
  }

  lemma NoMapping(lines: seq<Line>, indent: int, es: seq<Entry>, from: nat, at: nat)
    requires Entries(lines, indent, es, from, at) && from < |lines| && !IsDash(lines[from].text)
    requires indent != -1 ==> !Outdented(lines, at, indent) && NoEntry(lines, indent, es, at)
    ensures NoBlock(lines, indent, from)
  {
    forall t, to | Block(lines, indent, t, from, to) ensures false {
      FirstLine(lines, indent, t, from, to);
      BlockUsesUp(lines, indent, t, from, to);
      Continues(lines, indent, es, t.entries, from, at, to);
    }
  }

  lemma NoSequence(lines: seq<Line>, indent: int, items: seq<Item>, from: nat, at: nat)
    requires Items(lines, indent, items, from, at) && from < |lines| && IsDash(lines[from].text)
    requires indent != -1 ==> !Outdented(lines, at, indent) && at < |lines|
                              && (lines[at].indent != indent || (IsDash(lines[at].text) && NoItemAt(lines, indent, at)))
    ensures NoBlock(lines, indent, from)
  {
    forall t, to | Block(lines, indent, t, from, to) ensures false {
      FirstLine(lines, indent, t, from, to);
      BlockUsesUp(lines, indent, t, from, to);
      ContinuesItems(lines, indent, items, t.items, from, at, to);
    }
  }

  ghost predicate NoItemAt(lines: seq<Line>, indent: int, at: nat) {
    forall i: Item :: i.at == at ==> !ItemAt(lines, indent, i)
  }

  /** A block starts on a line with its indent. */
  lemma Misplaced(lines: seq<Line>, indent: int, from: nat)
    requires from < |lines| && lines[from].indent != indent
    ensures NoBlock(lines, indent, from)
  {
    forall t, to | Block(lines, indent, t, from, to) ensures false {
      FirstLine(lines, indent, t, from, to);
    }
  }

  ghost predicate NoMoreAt(lines: seq<Line>, indent: int, key: string, from: nat) {
    forall more, to :: !MoreAt(lines, indent, key, more, from, to)
  }

  lemma NoFurther(lines: seq<Line>, indent: int, key: string, es: seq<Entry>, from: nat, at: nat)
    requires Entries(lines, indent, es, from, at) && at < |lines| && lines[at].indent == indent
             && !("- " <= lines[at].text)
    requires forall e: Entry :: e.at == at && EntryAt(lines, indent, e) ==> e.key == key || e.key in EraseEntries(es)
    ensures NoMoreAt(lines, indent, key, from)
  {
    forall more, to | MoreAt(lines, indent, key, more, from, to) ensures false {
      EntriesUseUp(lines, indent, more, from, to);
      Continues(lines, indent, es, more, from, at, to);
    }
  }

  lemma NoKeyed(lines: seq<Line>, indent: int, first: KeyRest, t: Tree, at: nat, mid: nat)
    requires at < |lines| && IsDash(lines[at].text) && AfterDash(lines[at].text) != ""
    requires MappingKey(AfterDash(lines[at].text)) == Some(first)
    requires ValueAt(lines, indent + 2, first.rest, t, at + 1, mid) && NoMoreAt(lines, indent + 2, first.key, mid)
    ensures NoItemAt(lines, indent, at)
  {
    forall i: Item | i.at == at && ItemAt(lines, indent, i) ensures false {
      MoreOfItem(lines, indent, first, i);
      UniqueValue(lines, indent + 2, first.rest, t, i.value, at + 1, mid, i.mid);
    }
  }

  lemma MoreOfItem(lines: seq<Line>, indent: int, first: KeyRest, i: Item)
    requires ItemAt(lines, indent, i) && AfterDash(lines[i.at].text) != ""
             && MappingKey(AfterDash(lines[i.at].text)) == Some(first)
    ensures i.Keyed? && ValueAt(lines, indent + 2, first.rest, i.value, i.at + 1, i.mid)
    ensures MoreAt(lines, indent + 2, first.key, i.more, i.mid, i.end)
  {
  }

  lemma DashIsNoKey()
    ensures MappingKey("-") == None
  {
    assert BareKey("-", 1) == None;
  }
}
