/**
 * The shop: an ordered inventory of items that is advanced by one day at
 * a time and printed as a report.
 */
module Shop {
  import opened Primitives
  import opened Decimal
  import opened Items

  /** Every item of the list can take one tick. */
  predicate AllCanTick(es: seq<Entry>)
  {
    forall i :: 0 <= i < |es| ==> CanTick(es[i])
  }

  /** The inventory after one day: each item ticked once, in place, in order. */
  function TickAll(es: seq<Entry>): (r: seq<Entry>)
    requires AllCanTick(es)
    ensures |r| == |es|
    ensures forall i :: 0 <= i < |es| ==> r[i] == Ticked(es[i])
  {
    if es == [] then [] else [Ticked(es[0])] + TickAll(es[1..])
  }

  /** A day changes neither the number of items, nor their order, nor their variants and names. */
  lemma TickAllKeepsKinds(es: seq<Entry>, i: nat)
    requires AllCanTick(es)
    requires i < |es|
    ensures |TickAll(es)| == |es|
    ensures TickAll(es)[i].kind == es[i].kind
    ensures KindName(TickAll(es)[i].kind) == KindName(es[i].kind)
  {
  }

  /** After a day every item whose quality was in [0, 50], other than Sulfuras, still has it there. */
  lemma TickAllKeepsQualityInRange(es: seq<Entry>)
    requires AllCanTick(es)
    ensures forall i :: 0 <= i < |es| && !es[i].kind.Sulfuras? && es[i].quality <= MAX_QUALITY ==>
              TickAll(es)[i].quality <= MAX_QUALITY
  {
  }

  const HEADER: string := "name, sellIn, quality"

  /** An item's line with its newline, as `writeln!` writes it. */
  function Row(e: Entry): string
  {
    Line(e) + "\n"
  }

  /** Each item's row, in order. */
  function Rows(es: seq<Entry>): (r: seq<string>)
    ensures |r| == |es|
    ensures forall i :: 0 <= i < |es| ==> r[i] == Row(es[i])
  {
    if es == [] then [] else [Row(es[0])] + Rows(es[1..])
  }

  /** The rows written one after another. */
  function Concat(rows: seq<string>): string
  {
    if rows == [] then "" else Concat(rows[..|rows| - 1]) + rows[|rows| - 1]
  }

  /** The rows of the report: the header line, then one row per item. */
  function ReportRows(es: seq<Entry>): seq<string>
  {
    [HEADER + "\n"] + Rows(es)
  }

  /** `Display for GildedRose`: the header line, then the rows of the items in order. */
  function Report(es: seq<Entry>): (r: string)
    ensures r == (HEADER + "\n") + Concat(Rows(es))
  {
    var header := HEADER + "\n";
    ConcatAppend([header], Rows(es));
    ConcatSingle(header);
    Concat(ReportRows(es))
  }

  /** Writing one more row appends it. */
  lemma ConcatSnoc(rows: seq<string>, row: string)
    ensures Concat(rows + [row]) == Concat(rows) + row
  {
  }

  /** Writing the first `k + 1` rows is writing the first `k`, then row `k`. */
  lemma ConcatPrefix(rows: seq<string>, k: nat)
    requires k < |rows|
    ensures Concat(rows[..k + 1]) == Concat(rows[..k]) + rows[k]
  {
    assert rows[..k + 1][..k] == rows[..k];
  }

  /** Writing two lists of rows is writing the first, then the second. */
  lemma {:induction false} ConcatAppend(a: seq<string>, b: seq<string>)
    ensures Concat(a + b) == Concat(a) + Concat(b)
    decreases |b|
  {
    if b == [] {
      assert a + b == a;
    } else {
      var n := |b|;
      var front, last := b[..n - 1], b[n - 1];
      assert a + b == (a + front) + [last];
      assert b == front + [last];
      calc {
        Concat(a + b);
        { ConcatSnoc(a + front, last); }
        Concat(a + front) + last;
        { ConcatAppend(a, front); }
        (Concat(a) + Concat(front)) + last;
        Concat(a) + (Concat(front) + last);
        { ConcatSnoc(front, last); }
        Concat(a) + Concat(b);
      }
    }
  }

  /** Writing a single row writes just that row. */
  lemma ConcatSingle(row: string)
    ensures Concat([row]) == row
  {
  }

  /** The item values of a list of items. */
  function Snapshots(xs: seq<Item>): (r: seq<Entry>)
    reads xs
    ensures |r| == |xs|
    ensures forall i :: 0 <= i < |xs| ==> r[i] == xs[i].Snapshot()
  {
    if xs == [] then [] else [xs[0].Snapshot()] + Snapshots(xs[1..])
  }

  /** `GildedRose`: owns its list of items; the list itself never changes, only the items in it. */
  class GildedRose {
    const items: seq<Item>

    /** The shop owns its items exclusively: no item appears twice. */
    ghost predicate Valid()
    {
      forall i, j :: 0 <= i < j < |items| ==> items[i] != items[j]
    }

    /** `GildedRose::new`. */
    constructor (items: seq<Item>)
      requires forall i, j :: 0 <= i < j < |items| ==> items[i] != items[j]
      ensures this.items == items && Valid()
    {
      this.items := items;
    }

    function Stock(): seq<Entry>
      reads items
    {
      Snapshots(items)
    }

    /** `GildedRose::tick`: every item ticked once, in stored order. */
    method Tick()
      requires Valid()
      requires AllCanTick(Stock())
      modifies items
      ensures Stock() == TickAll(old(Stock()))
    {
      var i := 0;
      while i < |items|
        invariant 0 <= i <= |items|
        invariant forall k :: 0 <= k < i ==> items[k].Snapshot() == Ticked(old(items[k].Snapshot()))
        invariant forall k :: i <= k < |items| ==> items[k].Snapshot() == old(items[k].Snapshot())
      {
        items[i].Tick();
        i := i + 1;
      }
    }

    /** The report, written line by line as the formatter does. */
    method Render() returns (text: string)
      ensures text == Report(Stock())
    {
      ghost var rows := ReportRows(Stock());
      text := HEADER + "\n";
      var i := 0;
      ConcatPrefix(rows, 0);
      while i < |items|
        invariant 0 <= i <= |items|
        invariant text == Concat(rows[..i + 1])
      {
        var entry := items[i].Snapshot();
        var row := Row(entry);
        assert Stock()[i] == entry;
        assert rows[i + 1] == row;
        ConcatPrefix(rows, i + 1);
        text := text + row;
        i := i + 1;
      }
      assert rows[..i + 1] == rows;
    }
  }

  /** The test with several items: an ordinary item and Aged Brie ticked together. */
  method SeveralItems() returns (after: seq<Entry>)
    ensures after == [NewEntry("a ordinary item", 4, 9), NewEntry(BRIE_NAME, 2, 11)]
  {
    var ordinary := new Item("a ordinary item", 5, 10);
    var brie := new Item(BRIE_NAME, 3, 10);
    var rose := new GildedRose([ordinary, brie]);
    rose.Tick();
    after := rose.Stock();
  }
}
