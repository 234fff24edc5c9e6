/** The admin dashboard's summary of the orders GET /orders/list returns:
    the number of orders, the revenue, the quantity sold per item name and
    the best seller, and the rows of the spreadsheet export. */
module AdminDashboard {
  import opened Common
  import OrderRoutes

  type Row = OrderRoutes.ListRow
  type Line = OrderRoutes.ListLine

  /** Every line of every order, order by order. */
  function AllLines(orders: seq<Row>): seq<Line> {
    if orders == [] then [] else AllLines(orders[..|orders| - 1]) + orders[|orders| - 1].items
  }

  /** The `itemsCount` object after the given lines were counted, one line at
      a time: `count[name] = (count[name] || 0) + (qty || 0)`. */
  function Tally(lines: seq<Line>): map<string, int> {
    if lines == [] then map[]
    else
      var counts := Tally(lines[..|lines| - 1]);
      var l := lines[|lines| - 1];
      counts[l.name := OrDefault(if l.name in counts then Some(counts[l.name]) else None, 0) + OrDefault(Some(l.qty), 0)]
  }

  /** The keys of `itemsCount` in insertion order, which `Object.entries`
      follows: each name where it first appears. */
  function KeysInOrder(lines: seq<Line>): seq<string> {
    if lines == [] then []
    else
      var keys := KeysInOrder(lines[..|lines| - 1]);
      if lines[|lines| - 1].name in keys then keys else keys + [lines[|lines| - 1].name]
  }

  /** The keys are exactly the names on the lines, each listed once. */
  lemma {:induction false} KeysListEachNameOnce(lines: seq<Line>)
    ensures forall n :: n in KeysInOrder(lines) <==> exists i :: 0 <= i < |lines| && lines[i].name == n
    ensures forall i, j :: 0 <= i < j < |KeysInOrder(lines)| ==> KeysInOrder(lines)[i] != KeysInOrder(lines)[j]
  {
    if lines != [] {
      var init := lines[..|lines| - 1];
      KeysListEachNameOnce(init);
      assert forall i :: 0 <= i < |init| ==> init[i] == lines[i];
    }
  }

  /** The reference count: the quantities of all lines with that name. */
  function QtyOf(lines: seq<Line>, name: string): int {
    if lines == [] then 0
    else QtyOf(lines[..|lines| - 1], name) + if lines[|lines| - 1].name == name then lines[|lines| - 1].qty else 0
  }

  /** The tally holds exactly the names that occur, each with the total
      quantity of its lines. */
  lemma {:induction false} TallyCountsEachName(lines: seq<Line>)
    ensures forall n :: n in Tally(lines) <==> exists i :: 0 <= i < |lines| && lines[i].name == n
    ensures forall n :: n in Tally(lines) ==> Tally(lines)[n] == QtyOf(lines, n)
  {
    if lines != [] {
      var init := lines[..|lines| - 1];
      var l := lines[|lines| - 1];
      TallyCountsEachName(init);
      assert forall i :: 0 <= i < |init| ==> init[i] == lines[i];
      var before := Tally(init);
      assert l.name in before ==> OrDefault(Some(before[l.name]), 0) == before[l.name];
      assert OrDefault(Some(l.qty), 0) == l.qty;
      forall n | n in Tally(lines) ensures Tally(lines)[n] == QtyOf(lines, n) {
        if n != l.name {
          assert Tally(lines)[n] == before[n];
        } else if n !in before {
          QtyOfAbsent(init, n);
        }
      }
    }
  }

  /** A name no line carries has count zero. */
  lemma {:induction false} QtyOfAbsent(lines: seq<Line>, name: string)
    requires forall i :: 0 <= i < |lines| ==> lines[i].name != name
    ensures QtyOf(lines, name) == 0
  {
    if lines != [] {
      QtyOfAbsent(lines[..|lines| - 1], name);
    }
  }

  /** Counting one more line. */
  lemma TallySnoc(lines: seq<Line>, l: Line)
    ensures Tally(lines + [l]) == var c := Tally(lines);
      c[l.name := OrDefault(if l.name in c then Some(c[l.name]) else None, 0) + OrDefault(Some(l.qty), 0)]
    ensures KeysInOrder(lines + [l]) == if l.name in KeysInOrder(lines) then KeysInOrder(lines) else KeysInOrder(lines) + [l.name]
  {
    assert (lines + [l])[..|lines|] == lines;
  }

  /** The nested `forEach` that fills `itemsCount`, also recording the order
      in which its keys were first set. */
  method CountItems(orders: seq<Row>) returns (counts: map<string, int>, keys: seq<string>)
    ensures counts == Tally(AllLines(orders)) && keys == KeysInOrder(AllLines(orders))
  {
    counts, keys := map[], [];
    var i := 0;
    while i < |orders|
      invariant 0 <= i <= |orders|
      invariant counts == Tally(AllLines(orders[..i])) && keys == KeysInOrder(AllLines(orders[..i]))
    {
      counts, keys := CountOrder(AllLines(orders[..i]), orders[i].items, counts, keys);
      AllLinesSnoc(orders, i);
      i := i + 1;
    }
    assert orders[..i] == orders;
  }

  /** The inner `forEach`: counts one order's lines on top of the counts of
      the lines before it. */
  method CountOrder(done: seq<Line>, items: seq<Line>, counts0: map<string, int>, keys0: seq<string>)
    returns (counts: map<string, int>, keys: seq<string>)
    requires counts0 == Tally(done) && keys0 == KeysInOrder(done)
    ensures counts == Tally(done + items) && keys == KeysInOrder(done + items)
  {
    counts, keys := counts0, keys0;
    var j := 0;
    ghost var seen := done;
    while j < |items|
      invariant 0 <= j <= |items| && seen == done + items[..j]
      invariant counts == Tally(seen) && keys == KeysInOrder(seen)
    {
      var it := items[j];
      TallySnoc(seen, it);
      if it.name !in keys {
        keys := keys + [it.name];
      }
      var before := if it.name in counts then Some(counts[it.name]) else None;
      counts := counts[it.name := OrDefault(before, 0) + OrDefault(Some(it.qty), 0)];
      PrefixSnoc(done, items, j);
      seen := seen + [it];
      j := j + 1;
    }
    assert items[..j] == items;
  }

  /** The lines counted so far, one line further into the order. */
  lemma PrefixSnoc(done: seq<Line>, items: seq<Line>, j: int)
    requires 0 <= j < |items|
    ensures done + items[..j + 1] == (done + items[..j]) + [items[j]]
  {
    assert items[..j + 1] == items[..j] + [items[j]];
  }

  /** One more order contributes its lines after the earlier orders' lines. */
  lemma AllLinesSnoc(orders: seq<Row>, i: int)
    requires 0 <= i < |orders|
    ensures AllLines(orders[..i + 1]) == AllLines(orders[..i]) + orders[i].items
  {
    assert orders[..i + 1][..i] == orders[..i];
  }

  /** The position of the first key with the largest count: where a stable
      sort by descending count puts its first entry. */
  function FirstMaxIndex(keys: seq<string>, counts: map<string, int>): (k: nat)
    requires keys != [] && forall i :: 0 <= i < |keys| ==> keys[i] in counts
    ensures k < |keys|
    ensures forall j :: 0 <= j < |keys| ==> counts[keys[j]] <= counts[keys[k]]
    ensures forall j :: 0 <= j < k ==> counts[keys[j]] < counts[keys[k]]
  {
    if |keys| == 1 then 0
    else
      var k := FirstMaxIndex(keys[..|keys| - 1], counts);
      if counts[keys[|keys| - 1]] > counts[keys[k]] then |keys| - 1 else k
  }

  /** `topItem`: the first best-selling name, or "-" when nothing was sold
      (or the name is empty). */
  function TopItem(keys: seq<string>, counts: map<string, int>): (r: string)
    requires forall i :: 0 <= i < |keys| ==> keys[i] in counts
    ensures keys == [] ==> r == "-"
    ensures keys != [] ==>
      var k := FirstMaxIndex(keys, counts);
      r == (if keys[k] == "" then "-" else keys[k])
    ensures r != "-" ==> r in counts && forall j :: 0 <= j < |keys| ==> counts[keys[j]] <= counts[r]
  {
    if keys == [] then "-"
    else
      var name := keys[FirstMaxIndex(keys, counts)];
      if name == "" then "-" else name
  }

  /** `totalRevenue`: the sum of `totalAmount || 0`. */
  function Revenue(orders: seq<Row>): int {
    SumOf(orders, (o: Row) => OrDefault(Some(o.totalAmount), 0))
  }

  /** Revenue adds up over any split of the orders, such as a week and the rest. */
  lemma RevenueOfAppend(a: seq<Row>, b: seq<Row>)
    ensures Revenue(a + b) == Revenue(a) + Revenue(b)
  {
    SumOfAppend(a, b, (o: Row) => OrDefault(Some(o.totalAmount), 0));
  }

  datatype Summary = Summary(totalOrders: int, totalRevenue: int, topItem: string)

  lemma KeysAreCounted(lines: seq<Line>)
    ensures forall i :: 0 <= i < |KeysInOrder(lines)| ==> KeysInOrder(lines)[i] in Tally(lines)
  {
    TallyCountsEachName(lines);
    KeysListEachNameOnce(lines);
  }

  /** The summary of a list of orders; the weekly summary is the same formula
      applied to the week's orders. */
  function SummaryOf(orders: seq<Row>): (s: Summary)
    ensures s.totalOrders == |orders| && s.totalRevenue == Revenue(orders)
    ensures s.topItem != "-" ==> exists i :: 0 <= i < |AllLines(orders)| && AllLines(orders)[i].name == s.topItem
  {
    var lines := AllLines(orders);
    KeysAreCounted(lines);
    TallyCountsEachName(lines);
    Summary(|orders|, Revenue(orders), TopItem(KeysInOrder(lines), Tally(lines)))
  }

  /** The summary's top item sold at least as many units as any other name
      on any line. */
  lemma TopItemIsBestSeller(orders: seq<Row>)
    requires SummaryOf(orders).topItem != "-"
    ensures var lines, top := AllLines(orders), SummaryOf(orders).topItem;
      forall i :: 0 <= i < |lines| ==> QtyOf(lines, lines[i].name) <= QtyOf(lines, top)
  {
    var lines := AllLines(orders);
    var keys, counts := KeysInOrder(lines), Tally(lines);
    TallyCountsEachName(lines);
    KeysListEachNameOnce(lines);
    KeysAreCounted(lines);
    var top := TopItem(keys, counts);
    forall i | 0 <= i < |lines| ensures QtyOf(lines, lines[i].name) <= QtyOf(lines, top) {
      var n := lines[i].name;
      assert n in keys;
      var j :| 0 <= j < |keys| && keys[j] == n;
      assert counts[keys[j]] <= counts[top];
    }
  }

  /** Whenever some line was sold and no line has an empty name, the summary
      names a top item, and that item is the name of a sold line. */
  lemma TopItemIsNamed(orders: seq<Row>)
    requires AllLines(orders) != []
    requires forall i :: 0 <= i < |AllLines(orders)| ==> AllLines(orders)[i].name != ""
    ensures exists i :: 0 <= i < |AllLines(orders)| && AllLines(orders)[i].name == SummaryOf(orders).topItem
  {
    var lines := AllLines(orders);
    var keys, counts := KeysInOrder(lines), Tally(lines);
    KeysListEachNameOnce(lines);
    KeysAreCounted(lines);
    assert lines[0].name in keys;
    var k := FirstMaxIndex(keys, counts);
    assert keys[k] in keys;
    var i :| 0 <= i < |lines| && lines[i].name == keys[k];
    assert SummaryOf(orders).topItem == keys[k];
  }

  /** `fetchDashboard`'s summary of the full list. */
  method Summarize(orders: seq<Row>) returns (s: Summary)
    ensures s == SummaryOf(orders)
  {
    var counts, keys := CountItems(orders);
    var totalRevenue := 0;
    var i := 0;
    while i < |orders|
      invariant 0 <= i <= |orders| && totalRevenue == Revenue(orders[..i])
    {
      assert orders[..i + 1][..i] == orders[..i];
      totalRevenue := totalRevenue + OrDefault(Some(orders[i].totalAmount), 0);
      i := i + 1;
    }
    assert orders[..i] == orders;
    KeysAreCounted(AllLines(orders));
    s := Summary(|orders|, totalRevenue, TopItem(keys, counts));
  }

  /** One row of the spreadsheet export. */
  datatype ExportRow = ExportRow(user: string, items: string, total: int)

  /** "name xqty" for each line, joined with ", ". */
  function ItemsText(lines: seq<Line>): string {
    Join(seq(|lines|, i requires 0 <= i < |lines| => lines[i].name + " x" + IntToString(lines[i].qty)), ", ")
  }

  /** `generateExcel`'s rows: one per order in list order, then a SUMMARY row
      last exactly when a summary is passed. */
  function ExportRows(orders: seq<Row>, summary: Option<Summary>): (rows: seq<ExportRow>)
    ensures |rows| == |orders| + if summary.Some? then 1 else 0
    ensures forall i :: 0 <= i < |orders| ==>
      rows[i] == ExportRow(orders[i].userName, ItemsText(orders[i].items), orders[i].totalAmount)
    ensures summary.Some? ==> rows[|orders|] == ExportRow("SUMMARY", "Top: " + summary.value.topItem, summary.value.totalRevenue)
  {
    var data := seq(|orders|, i requires 0 <= i < |orders| =>
      ExportRow(orders[i].userName, ItemsText(orders[i].items), orders[i].totalAmount));
    if summary.Some? then data + [ExportRow("SUMMARY", "Top: " + summary.value.topItem, summary.value.totalRevenue)]
    else data
  }

  /** The SUMMARY row's amount is the sum of the amounts of the rows above it,
      when the summary is the one of the exported orders. */
  lemma {:induction false} SummaryRowBalances(orders: seq<Row>)
    ensures var rows := ExportRows(orders, Some(SummaryOf(orders)));
      rows[|orders|].total == SumOf(rows[..|orders|], (r: ExportRow) => r.total)
  {
    var rows := ExportRows(orders, Some(SummaryOf(orders)));
    RowTotals(orders, rows[..|orders|]);
  }

  lemma {:induction false} RowTotals(orders: seq<Row>, rows: seq<ExportRow>)
    requires |rows| == |orders| && forall i :: 0 <= i < |orders| ==> rows[i].total == orders[i].totalAmount
    ensures SumOf(rows, (r: ExportRow) => r.total) == Revenue(orders)
  {
    if orders != [] {
      RowTotals(orders[..|orders| - 1], rows[..|rows| - 1]);
    }
  }
}
