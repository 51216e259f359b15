/** What the column plan of one table guarantees: exclusion before dispatch,
    catalog order, dispatch and the cells extracted from each fetch. */
module PlanFacts {
  import opened Model
  import opened Export

  /** The positions of the catalog rows that are not excluded. */
  function KeptPositions(cat: seq<ColumnRow>): seq<nat>
  {
    if cat == [] then []
    else
      var n := |cat| - 1;
      KeptPositions(cat[..n]) + if IsExcluded(cat[n].name) then [] else [n]
  }

  /** The kept positions are increasing and are exactly the catalog rows
      whose names are not excluded. */
  lemma {:induction false} KeptPositionsExact(cat: seq<ColumnRow>)
    ensures forall j :: 0 <= j < |KeptPositions(cat)| ==> KeptPositions(cat)[j] < |cat|
    ensures forall j, j' :: 0 <= j < j' < |KeptPositions(cat)| ==> KeptPositions(cat)[j] < KeptPositions(cat)[j']
    ensures forall i :: 0 <= i < |cat| ==> (i in KeptPositions(cat) <==> !IsExcluded(cat[i].name))
  {
    if cat != [] {
      var n := |cat| - 1;
      KeptPositionsExact(cat[..n]);
      assert forall i :: 0 <= i < n ==> cat[..n][i] == cat[i];
    }
  }

  /** The plan is the catalog with the excluded names removed and nothing
      else changed: its j-th fetch is made from the j-th kept catalog row,
      so every kept column is fetched exactly once, in catalog order. An
      excluded column is skipped whatever its type. */
  lemma {:induction false} PlanIsOrderedSelection(t: TableRow, cat: seq<ColumnRow>)
    ensures |PlanColumns(t, cat)| == |KeptPositions(cat)|
    ensures forall j :: 0 <= j < |KeptPositions(cat)| ==>
      KeptPositions(cat)[j] < |cat| && PlanColumns(t, cat)[j] == PlanOf(t, cat[KeptPositions(cat)[j]])
    ensures forall j :: 0 <= j < |PlanColumns(t, cat)| ==> !IsExcluded(PlanColumns(t, cat)[j].column)
  {
    KeptPositionsExact(cat);
    if cat != [] {
      var n := |cat| - 1;
      var init := cat[..n];
      PlanIsOrderedSelection(t, init);
      KeptPositionsExact(init);
      assert forall j :: 0 <= j < |KeptPositions(init)| ==> init[KeptPositions(init)[j]] == cat[KeptPositions(init)[j]];
    }
  }

  /** Planning one more catalog row adds at most its fetch to the end. */
  lemma PlanStep(t: TableRow, cat: seq<ColumnRow>, i: nat)
    requires i < |cat|
    ensures PlanColumns(t, cat[..i + 1])
         == PlanColumns(t, cat[..i]) + if IsExcluded(cat[i].name) then [] else [PlanOf(t, cat[i])]
  {
    assert cat[..i + 1][..i] == cat[..i];
  }

  /** The fetches planned for a prefix of the catalog are a prefix of the
      plan for the whole catalog. */
  lemma {:induction false} PlanOfPrefix(t: TableRow, cat: seq<ColumnRow>, k: nat)
    requires k <= |cat|
    ensures |PlanColumns(t, cat[..k])| <= |PlanColumns(t, cat)|
    ensures PlanColumns(t, cat)[..|PlanColumns(t, cat[..k])|] == PlanColumns(t, cat[..k])
  {
    if k < |cat| {
      var n := |cat| - 1;
      assert cat[..n][..k] == cat[..k];
      PlanOfPrefix(t, cat[..n], k);
      var whole, init, pre := PlanColumns(t, cat), PlanColumns(t, cat[..n]), PlanColumns(t, cat[..k]);
      var tail := if IsExcluded(cat[n].name) then [] else [PlanOf(t, cat[n])];
      assert whole == init + tail;
      assert whole[..|pre|] == init[..|pre|];
    } else {
      assert cat[..k] == cat;
    }
  }

  /** Extraction yields one cell per result row, in cursor order: the
      (lat, long) pair on the geography path, field 0 on the others; it
      fails iff some row does not fit, with the error of the first such row. */
  lemma {:induction false} ExtractCells(k: Strategy, query: string, rows: seq<Row>)
    ensures var r := Extract(k, query, rows);
      && (r.Ok? <==> forall i :: 0 <= i < |rows| ==> Fits(k, rows[i]))
      && (r.Ok? ==> |r.value| == |rows|)
      && (r.Ok? && k == Geography ==>
            forall i :: 0 <= i < |rows| ==> r.value[i] == Pair(rows[i][0], rows[i][1]))
      && (r.Ok? && k != Geography ==>
            forall i :: 0 <= i < |rows| ==> r.value[i] == Scalar(rows[i][0]))
      && (r.Err? ==>
            && !r.failure.QueryFailed?
            && r.failure.row < |rows|
            && r.failure == ShapeFailure(k, query, r.failure.row)
            && !Fits(k, rows[r.failure.row])
            && forall j :: 0 <= j < r.failure.row ==> Fits(k, rows[j]))
  {
    if rows != [] {
      var n := |rows| - 1;
      ExtractCells(k, query, rows[..n]);
      assert forall i :: 0 <= i < n ==> rows[..n][i] == rows[i];
    }
  }

  /** Once a row has failed to fit, the later rows do not matter. */
  lemma {:induction false} ExtractStops(k: Strategy, query: string, rows: seq<Row>, n: nat)
    requires n <= |rows|
    requires Extract(k, query, rows[..n]).Err?
    ensures Extract(k, query, rows) == Extract(k, query, rows[..n])
  {
    if n < |rows| {
      var m := |rows| - 1;
      assert rows[..m][..n] == rows[..n];
      ExtractStops(k, query, rows[..m], n);
    } else {
      assert rows[..n] == rows;
    }
  }

  /** The worked example: `Sales.Order` with columns OrderID, CustomerID,
      rowguid and the geography ShipGeo exports OrderID, CustomerID, ShipGeo,
      ShipGeo fetched as a (lat, long) pair. */
  lemma SalesOrderPlan()
    ensures var plan := PlanColumns(TableRow("Sales", "Order"),
      [ColumnRow("OrderID", "int"), ColumnRow("CustomerID", "int"),
       ColumnRow("rowguid", "uniqueidentifier"), ColumnRow("ShipGeo", "geography")]);
      && Columns(plan) == ["OrderID", "CustomerID", "ShipGeo"]
      && plan[0].strategy == Plain && plan[1].strategy == Plain && plan[2].strategy == Geography
  {
    var t := TableRow("Sales", "Order");
    var cat := [ColumnRow("OrderID", "int"), ColumnRow("CustomerID", "int"),
                ColumnRow("rowguid", "uniqueidentifier"), ColumnRow("ShipGeo", "geography")];
    assert cat[..1][..0] == [];
    assert cat[..2][..1] == cat[..1];
    assert cat[..3][..2] == cat[..2];
    assert cat[..4] == cat;
    assert PlanColumns(t, cat[..1]) == [PlanOf(t, cat[0])];
    assert PlanColumns(t, cat[..2]) == [PlanOf(t, cat[0]), PlanOf(t, cat[1])];
    assert PlanColumns(t, cat[..3]) == PlanColumns(t, cat[..2]);
  }
}
