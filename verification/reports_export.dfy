/** The spreadsheet of a closed week's trips: one block of rows per service
    (the principal driver's row, then one row per additional driver), the
    service columns merged over the block, a fill that alternates by service,
    then the totals. The sheet is the object the export fills row by row. */
module ReportsExport {
  import opened Common
  import opened ReportsGrouping

  /** Code, client, origin, destination, type, start, end, duration,
      currency, price and bonus: every column except the driver (C) and the
      assignment reason (D). */
  const MergedColumns: seq<char> := ['A', 'B', 'E', 'F', 'G', 'H', 'I', 'J', 'K', 'L', 'M']

  /** White and light blue, alternating by service. */
  function ServiceFill(index: nat): string {
    if index % 2 == 0 then "FFFFFFFF" else "FFE3F2FD"
  }

  /** Light gray and lighter blue for the additional drivers' rows. */
  function DriversFill(index: nat): string {
    if index % 2 == 0 then "FFF5F5F5" else "FFD1E7F5"
  }

  datatype SheetRow =
    | PrincipalRow(service: ServiceWithDrivers, fill: string)
    | ExtraDriverRow(driver: DriverLine, fill: string)
    | TripsTotalRow(count: string)
    | CurrencyTotalRow(currency: string, total: real)
    | EmptyRow

  /** A merged range of one column, from one row number to another. */
  datatype Merge = Merge(column: char, fromRow: int, toRow: int)

  /** The worksheet below its header row (row 1): the rows added so far and
      the merged ranges. */
  class Worksheet {
    var rows: seq<SheetRow>
    var merges: seq<Merge>

    constructor ()
      ensures rows == [] && merges == []
    {
      rows := [];
      merges := [];
    }

    /** The number the next added row gets: rows are appended after the last. */
    function NextRowNumber(): int
      reads this
    {
      |rows| + 2
    }

    method AddRow(row: SheetRow)
      modifies this
      ensures rows == old(rows) + [row] && merges == old(merges)
    {
      rows := rows + [row];
    }

    method MergeCells(m: Merge)
      modifies this
      ensures merges == old(merges) + [m] && rows == old(rows)
    {
      merges := merges + [m];
    }
  }

  // ---------------------------------------------------------------------
  // The layout, as functions of the services

  function ExtraRows(drivers: seq<DriverLine>, fill: string): (r: seq<SheetRow>)
    ensures |r| == |drivers|
    ensures forall j {:trigger r[j]} :: 0 <= j < |drivers| ==> r[j] == ExtraDriverRow(drivers[j], fill)
  {
    seq(|drivers|, j requires 0 <= j < |drivers| => ExtraDriverRow(drivers[j], fill))
  }

  /** The rows of the service at position index. */
  function ServiceBlock(service: ServiceWithDrivers, index: nat): seq<SheetRow> {
    [PrincipalRow(service, ServiceFill(index))] + ExtraRows(service.additionalDrivers, DriversFill(index))
  }

  /** One merge per merged column over the given rows. */
  function ColumnMerges(columns: seq<char>, fromRow: int, toRow: int): (r: seq<Merge>)
    ensures |r| == |columns|
    ensures forall j {:trigger r[j]} :: 0 <= j < |columns| ==> r[j] == Merge(columns[j], fromRow, toRow)
  {
    seq(|columns|, j requires 0 <= j < |columns| => Merge(columns[j], fromRow, toRow))
  }

  /** The merges of one block starting at row number start: none when the
      service has no additional driver. */
  function BlockMerges(service: ServiceWithDrivers, start: int): seq<Merge> {
    if |service.additionalDrivers| > 0 then ColumnMerges(MergedColumns, start, start + |service.additionalDrivers|) else []
  }

  /** The rows of the first n services, each block after those before it. */
  function RowsUpTo(services: seq<ServiceWithDrivers>, n: nat): seq<SheetRow>
    requires n <= |services|
  {
    if n == 0 then [] else RowsUpTo(services, n - 1) + ServiceBlock(services[n - 1], n - 1)
  }

  function DataRows(services: seq<ServiceWithDrivers>): seq<SheetRow> {
    RowsUpTo(services, |services|)
  }

  /** The merges of the first n services: each block's merges start at the
      row after the rows of the services before it. */
  function MergesUpTo(services: seq<ServiceWithDrivers>, n: nat): seq<Merge>
    requires n <= |services|
  {
    if n == 0 then []
    else MergesUpTo(services, n - 1) + BlockMerges(services[n - 1], 2 + |RowsUpTo(services, n - 1)|)
  }

  function DataMerges(services: seq<ServiceWithDrivers>): seq<Merge> {
    MergesUpTo(services, |services|)
  }

  /** Sum over the first n services of one row each plus one per additional
      driver. */
  function RowCount(services: seq<ServiceWithDrivers>, n: nat): nat
    requires n <= |services|
  {
    if n == 0 then 0 else RowCount(services, n - 1) + 1 + |services[n - 1].additionalDrivers|
  }

  // ---------------------------------------------------------------------
  // Writing the data rows

  /** One pass of the services loop: the principal row, the additional
      drivers' rows, then the merges when there is more than one row. */
  method WriteService(sheet: Worksheet, service: ServiceWithDrivers, serviceIndex: nat, currentRow: int)
    returns (nextRow: int)
    requires currentRow == sheet.NextRowNumber()
    modifies sheet
    ensures sheet.rows == old(sheet.rows) + ServiceBlock(service, serviceIndex)
    ensures sheet.merges == old(sheet.merges) + BlockMerges(service, currentRow)
    ensures nextRow == sheet.NextRowNumber()
  {
    var serviceStartRow := currentRow;
    var totalRows := 1 + |service.additionalDrivers|;
    sheet.AddRow(PrincipalRow(service, ServiceFill(serviceIndex)));
    nextRow := currentRow + 1;
    nextRow := WriteExtraRows(sheet, service.additionalDrivers, DriversFill(serviceIndex), nextRow);
    AppendGrouping(old(sheet.rows), [PrincipalRow(service, ServiceFill(serviceIndex))],
                   ExtraRows(service.additionalDrivers, DriversFill(serviceIndex)));
    if totalRows > 1 {
      var endRow := nextRow - 1;
      WriteMerges(sheet, serviceStartRow, endRow);
    }
  }

  /** The forEach over the additional drivers, one row each. */
  method WriteExtraRows(sheet: Worksheet, drivers: seq<DriverLine>, fill: string, currentRow: int)
    returns (nextRow: int)
    requires currentRow == sheet.NextRowNumber()
    modifies sheet
    ensures sheet.rows == old(sheet.rows) + ExtraRows(drivers, fill) && sheet.merges == old(sheet.merges)
    ensures nextRow == sheet.NextRowNumber()
  {
    nextRow := currentRow;
    for j := 0 to |drivers|
      invariant sheet.rows == old(sheet.rows) + ExtraRows(drivers[..j], fill)
      invariant sheet.merges == old(sheet.merges)
      invariant nextRow == sheet.NextRowNumber()
    {
      assert ExtraRows(drivers[..j + 1], fill) == ExtraRows(drivers[..j], fill) + [ExtraDriverRow(drivers[j], fill)];
      sheet.AddRow(ExtraDriverRow(drivers[j], fill));
      AppendGrouping(old(sheet.rows), ExtraRows(drivers[..j], fill), [ExtraDriverRow(drivers[j], fill)]);
      nextRow := nextRow + 1;
    }
    assert drivers[..|drivers|] == drivers;
  }

  /** mergeCells over the block, column by column. */
  method WriteMerges(sheet: Worksheet, fromRow: int, toRow: int)
    modifies sheet
    ensures sheet.merges == old(sheet.merges) + ColumnMerges(MergedColumns, fromRow, toRow)
    ensures sheet.rows == old(sheet.rows)
  {
    for c := 0 to |MergedColumns|
      invariant sheet.rows == old(sheet.rows)
      invariant sheet.merges == old(sheet.merges) + ColumnMerges(MergedColumns[..c], fromRow, toRow)
    {
      assert ColumnMerges(MergedColumns[..c + 1], fromRow, toRow)
          == ColumnMerges(MergedColumns[..c], fromRow, toRow) + [Merge(MergedColumns[c], fromRow, toRow)];
      sheet.MergeCells(Merge(MergedColumns[c], fromRow, toRow));
      AppendGrouping(old(sheet.merges), ColumnMerges(MergedColumns[..c], fromRow, toRow), [Merge(MergedColumns[c], fromRow, toRow)]);
    }
    assert MergedColumns[..|MergedColumns|] == MergedColumns;
  }

  /** The services loop of the export, from row 2 on. */
  method WriteServices(sheet: Worksheet, services: seq<ServiceWithDrivers>) returns (currentRow: int)
    requires sheet.rows == [] && sheet.merges == []
    modifies sheet
    ensures sheet.rows == DataRows(services) && sheet.merges == DataMerges(services)
    ensures currentRow == sheet.NextRowNumber()
  {
    currentRow := 2;
    for i := 0 to |services|
      invariant sheet.rows == RowsUpTo(services, i) && sheet.merges == MergesUpTo(services, i)
      invariant currentRow == sheet.NextRowNumber()
    {
      currentRow := WriteService(sheet, services[i], i, currentRow);
    }
  }

  // ---------------------------------------------------------------------
  // Totals by currency

  datatype CurrencyTotal = CurrencyTotal(currency: string, count: nat, total: real)

  /** typeof price === 'number' ? price : parseFloat(price) || 0: a missing
      price adds nothing. */
  function PriceValue(price: Option<real>): real {
    match price
    case None => 0.0
    case Some(p) => p
  }

  function CurrencyIndex(totals: seq<CurrencyTotal>, currency: string): (r: Option<nat>)
    ensures r.None? <==> forall i :: 0 <= i < |totals| ==> totals[i].currency != currency
    ensures r.Some? ==> r.value < |totals| && totals[r.value].currency == currency
  {
    if totals == [] then None
    else if totals[|totals| - 1].currency == currency then Some(|totals| - 1)
    else CurrencyIndex(totals[..|totals| - 1], currency)
  }

  /** totalsByCurrency.set(currency, { count + 1, total + price }). */
  function AddService(totals: seq<CurrencyTotal>, service: ServiceWithDrivers): seq<CurrencyTotal> {
    match CurrencyIndex(totals, service.currencyCode)
    case None => totals + [CurrencyTotal(service.currencyCode, 1, PriceValue(service.price))]
    case Some(i) =>
      totals[i := CurrencyTotal(service.currencyCode, totals[i].count + 1, totals[i].total + PriceValue(service.price))]
  }

  function CurrencyTotals(services: seq<ServiceWithDrivers>): seq<CurrencyTotal> {
    if services == [] then [] else AddService(CurrencyTotals(services[..|services| - 1]), services[|services| - 1])
  }

  lemma CurrencyTotalsStep(services: seq<ServiceWithDrivers>, i: nat)
    requires i < |services|
    ensures CurrencyTotals(services[..i + 1]) == AddService(CurrencyTotals(services[..i]), services[i])
  {
    var p := services[..i + 1];
    assert p[..|p| - 1] == services[..i];
    assert p[|p| - 1] == services[i];
  }

  /** One pass of the totals loop: get the currency's entry, or start one,
      and set it back with the count and the total raised. */
  method CountService(totals: seq<CurrencyTotal>, service: ServiceWithDrivers) returns (updated: seq<CurrencyTotal>)
    ensures updated == AddService(totals, service)
  {
    var currency := service.currencyCode;
    var existing := CurrencyIndex(totals, currency);
    var price := PriceValue(service.price);
    if existing.None? {
      updated := totals + [CurrencyTotal(currency, 1, price)];
    } else {
      var k := existing.value;
      updated := totals[k := CurrencyTotal(currency, totals[k].count + 1, totals[k].total + price)];
    }
  }

  /** The totals loop of the export, proved against CurrencyTotals. */
  method TotalsByCurrency(services: seq<ServiceWithDrivers>) returns (totals: seq<CurrencyTotal>)
    ensures totals == CurrencyTotals(services)
  {
    totals := [];
    for i := 0 to |services|
      invariant totals == CurrencyTotals(services[..i])
    {
      CurrencyTotalsStep(services, i);
      totals := CountService(totals, services[i]);
    }
    assert services[..|services|] == services;
  }

  function CountWith(services: seq<ServiceWithDrivers>, currency: string): nat {
    if services == [] then 0
    else CountWith(services[..|services| - 1], currency) + (if services[|services| - 1].currencyCode == currency then 1 else 0)
  }

  function SumWith(services: seq<ServiceWithDrivers>, currency: string): real {
    if services == [] then 0.0
    else SumWith(services[..|services| - 1], currency) + (if services[|services| - 1].currencyCode == currency then PriceValue(services[|services| - 1].price) else 0.0)
  }

  function SumCounts(totals: seq<CurrencyTotal>): nat {
    if totals == [] then 0 else SumCounts(totals[..|totals| - 1]) + totals[|totals| - 1].count
  }

  predicate DistinctCurrencies(totals: seq<CurrencyTotal>) {
    forall i, j :: 0 <= i < j < |totals| ==> totals[i].currency != totals[j].currency
  }

  /** What the totals table holds for one currency. */
  ghost predicate TotalsAgree(services: seq<ServiceWithDrivers>, totals: seq<CurrencyTotal>) {
    && DistinctCurrencies(totals)
    && (forall i :: 0 <= i < |totals| ==>
          totals[i].count == CountWith(services, totals[i].currency) && totals[i].total == SumWith(services, totals[i].currency))
    && (forall c :: CurrencyIndex(totals, c).None? ==> CountWith(services, c) == 0)
  }

  lemma {:induction false} NoCountNoSum(services: seq<ServiceWithDrivers>, currency: string)
    requires CountWith(services, currency) == 0
    ensures SumWith(services, currency) == 0.0
  {
    if services != [] {
      NoCountNoSum(services[..|services| - 1], currency);
    }
  }

  lemma SumCountsUpdate(totals: seq<CurrencyTotal>, i: nat, t: CurrencyTotal)
    requires i < |totals|
    ensures SumCounts(totals[i := t]) == SumCounts(totals) - totals[i].count + t.count
  {
    if i < |totals| - 1 {
      assert totals[i := t][..|totals| - 1] == totals[..|totals| - 1][i := t];
      SumCountsUpdate(totals[..|totals| - 1], i, t);
    } else {
      assert totals[i := t][..|totals| - 1] == totals[..|totals| - 1];
    }
  }

  /** A service in a currency not yet in the table opens a line of its own. */
  lemma NewCurrencyAgrees(all: seq<ServiceWithDrivers>, totals: seq<CurrencyTotal>)
    requires all != [] && TotalsAgree(all[..|all| - 1], totals)
    requires CurrencyIndex(totals, all[|all| - 1].currencyCode).None?
    ensures TotalsAgree(all, AddService(totals, all[|all| - 1]))
  {
    var services, c := all[..|all| - 1], all[|all| - 1].currencyCode;
    var r := totals + [CurrencyTotal(c, 1, PriceValue(all[|all| - 1].price))];
    assert AddService(totals, all[|all| - 1]) == r;
    NoCountNoSum(services, c);
    forall i, j | 0 <= i < j < |r|
      ensures r[i].currency != r[j].currency
    {
      assert r[i] == totals[i];
      if j < |totals| {
        assert r[j] == totals[j];
      }
    }
    forall i | 0 <= i < |r|
      ensures r[i].count == CountWith(all, r[i].currency) && r[i].total == SumWith(all, r[i].currency)
    {
      if i < |totals| {
        assert r[i] == totals[i];
      }
    }
    forall d | CurrencyIndex(r, d).None?
      ensures CountWith(all, d) == 0
    {
      assert r[|r| - 1].currency == c;
      forall i | 0 <= i < |totals|
        ensures totals[i].currency != d
      {
        assert r[i] == totals[i];
      }
      assert CurrencyIndex(totals, d).None?;
    }
  }

  /** A service in a currency already in the table raises that line only. */
  lemma KnownCurrencyAgrees(all: seq<ServiceWithDrivers>, totals: seq<CurrencyTotal>, k: nat)
    requires all != [] && TotalsAgree(all[..|all| - 1], totals)
    requires CurrencyIndex(totals, all[|all| - 1].currencyCode) == Some(k)
    ensures TotalsAgree(all, AddService(totals, all[|all| - 1]))
  {
    var c := all[|all| - 1].currencyCode;
    var r := totals[k := CurrencyTotal(c, totals[k].count + 1, totals[k].total + PriceValue(all[|all| - 1].price))];
    assert AddService(totals, all[|all| - 1]) == r;
    assert same: forall i :: 0 <= i < |r| ==> r[i].currency == totals[i].currency;
    forall i | 0 <= i < |r|
      ensures r[i].count == CountWith(all, r[i].currency) && r[i].total == SumWith(all, r[i].currency)
    {
      if i != k {
        assert r[i] == totals[i];
      }
    }
    forall d | CurrencyIndex(r, d).None?
      ensures CountWith(all, d) == 0
    {
      assert r[k].currency == c;
      assert CurrencyIndex(totals, d).None?;
    }
  }

  /** Counting the last service keeps the table in agreement with the
      services counted so far. */
  lemma AddServiceAgrees(all: seq<ServiceWithDrivers>, totals: seq<CurrencyTotal>)
    requires all != [] && TotalsAgree(all[..|all| - 1], totals)
    ensures TotalsAgree(all, AddService(totals, all[|all| - 1]))
  {
    if CurrencyIndex(totals, all[|all| - 1].currencyCode).None? {
      NewCurrencyAgrees(all, totals);
    } else {
      KnownCurrencyAgrees(all, totals, CurrencyIndex(totals, all[|all| - 1].currencyCode).value);
    }
  }

  /** Counting a service adds one to the counts. */
  lemma AddServiceCounts(totals: seq<CurrencyTotal>, s: ServiceWithDrivers)
    ensures SumCounts(AddService(totals, s)) == SumCounts(totals) + 1
  {
    match CurrencyIndex(totals, s.currencyCode)
    case None =>
      var added := totals + [CurrencyTotal(s.currencyCode, 1, PriceValue(s.price))];
      assert added[..|added| - 1] == totals;
    case Some(k) =>
      SumCountsUpdate(totals, k, CurrencyTotal(s.currencyCode, totals[k].count + 1, totals[k].total + PriceValue(s.price)));
  }

  /** Each currency of the services has one line, in order of first
      appearance, counting its services and summing their prices; the counts
      add up to the number of services. */
  lemma {:induction false} CurrencyTotalsMeaning(services: seq<ServiceWithDrivers>)
    ensures TotalsAgree(services, CurrencyTotals(services))
    ensures SumCounts(CurrencyTotals(services)) == |services|
  {
    if services != [] {
      var prefix := services[..|services| - 1];
      CurrencyTotalsMeaning(prefix);
      AddServiceAgrees(services, CurrencyTotals(prefix));
      AddServiceCounts(CurrencyTotals(prefix), services[|services| - 1]);
    }
  }

  // ---------------------------------------------------------------------
  // Totals rows and the whole sheet

  function CurrencyRows(totals: seq<CurrencyTotal>): (r: seq<SheetRow>)
    ensures |r| == |totals|
    ensures forall i :: 0 <= i < |totals| ==> r[i] == CurrencyTotalRow(totals[i].currency, totals[i].total)
  {
    if totals == [] then []
    else CurrencyRows(totals[..|totals| - 1]) + [CurrencyTotalRow(totals[|totals| - 1].currency, totals[|totals| - 1].total)]
  }

  /** TOTAL DE VIAJES with the number of services, then one row per currency. */
  function TotalsRows(services: seq<ServiceWithDrivers>): seq<SheetRow> {
    [TripsTotalRow(NatToString(|services|))] + CurrencyRows(CurrencyTotals(services))
  }

  /** The sheet as the export writes it: the totals follow the last data row. */
  function SheetAsWritten(services: seq<ServiceWithDrivers>): seq<SheetRow> {
    DataRows(services) + TotalsRows(services)
  }

  /** The sheet with the two rows the export means to skip before the totals. */
  function Sheet(services: seq<ServiceWithDrivers>): seq<SheetRow> {
    DataRows(services) + [EmptyRow, EmptyRow] + TotalsRows(services)
  }

  /** The row number currentRow holds once the totals section starts, after
      currentRow += 2. */
  function SkipTarget(services: seq<ServiceWithDrivers>): int {
    |DataRows(services)| + 2 + 2
  }

  /** The totals as written: currentRow += 2 moves a counter addRow never
      reads, so the totals land two rows above the row the counter names. */
  method WriteTotalsAsWritten(sheet: Worksheet, services: seq<ServiceWithDrivers>, currentRow: int)
    returns (skipTo: int, totalsRow: int)
    requires currentRow == sheet.NextRowNumber()
    modifies sheet
    ensures sheet.rows == old(sheet.rows) + TotalsRows(services) && sheet.merges == old(sheet.merges)
    ensures totalsRow == skipTo - 2
  {
    skipTo := currentRow + 2;
    var totals := TotalsByCurrency(services);
    totalsRow := sheet.NextRowNumber();
    sheet.AddRow(TripsTotalRow(NatToString(|services|)));
    WriteCurrencyRows(sheet, totals);
    AppendGrouping(old(sheet.rows), [TripsTotalRow(NatToString(|services|))], CurrencyRows(totals));
  }

  /** The totals with the two skipped rows: the totals start at the row the
      counter names. */
  method WriteTotals(sheet: Worksheet, services: seq<ServiceWithDrivers>, currentRow: int)
    returns (skipTo: int, totalsRow: int)
    requires currentRow == sheet.NextRowNumber()
    modifies sheet
    ensures sheet.rows == old(sheet.rows) + [EmptyRow, EmptyRow] + TotalsRows(services) && sheet.merges == old(sheet.merges)
    ensures totalsRow == skipTo
  {
    sheet.AddRow(EmptyRow);
    sheet.AddRow(EmptyRow);
    ghost var padded := sheet.rows;
    assert padded == old(sheet.rows) + [EmptyRow, EmptyRow];
    skipTo := currentRow + 2;
    var totals := TotalsByCurrency(services);
    totalsRow := sheet.NextRowNumber();
    sheet.AddRow(TripsTotalRow(NatToString(|services|)));
    WriteCurrencyRows(sheet, totals);
    AppendGrouping(padded, [TripsTotalRow(NatToString(|services|))], CurrencyRows(totals));
  }

  method WriteCurrencyRows(sheet: Worksheet, totals: seq<CurrencyTotal>)
    modifies sheet
    ensures sheet.rows == old(sheet.rows) + CurrencyRows(totals) && sheet.merges == old(sheet.merges)
  {
    for i := 0 to |totals|
      invariant sheet.rows == old(sheet.rows) + CurrencyRows(totals[..i]) && sheet.merges == old(sheet.merges)
    {
      assert totals[..i + 1][..i] == totals[..i];
      sheet.AddRow(CurrencyTotalRow(totals[i].currency, totals[i].total));
      AppendGrouping(old(sheet.rows), CurrencyRows(totals[..i]), [CurrencyTotalRow(totals[i].currency, totals[i].total)]);
    }
    assert totals[..|totals|] == totals;
  }

  /** The whole export sheet as the export writes it: the totals directly
      below the data. */
  method ExportSheetAsWritten(services: seq<ServiceWithDrivers>) returns (sheet: Worksheet)
    ensures fresh(sheet)
    ensures sheet.rows == SheetAsWritten(services) && sheet.merges == DataMerges(services)
  {
    sheet := new Worksheet();
    var currentRow := WriteServices(sheet, services);
    var skipTo, totalsRow := WriteTotalsAsWritten(sheet, services, currentRow);
  }

  /** exportWeeklyTrips: the week's rows grouped as the weekly report groups
      them, but with no price withheld, then written out as the code does. */
  method ExportWeek(rows: seq<TripRow>) returns (sheet: Worksheet)
    ensures fresh(sheet)
    ensures sheet.rows == SheetAsWritten(Group(rows, false)) && sheet.merges == DataMerges(Group(rows, false))
  {
    var services := GroupRows(rows, None);
    sheet := ExportSheetAsWritten(services);
  }

  /** Every service in the export carries the price of its principal row,
      whatever the caller's role. */
  lemma ExportKeepsPrices(rows: seq<TripRow>, k: int)
    requires LastPrincipal(rows, k).Some?
    ensures EntryFor(Group(rows, false), k).Some?
    ensures EntryFor(Group(rows, false), k).value.price == rows[LastPrincipal(rows, k).value].price
  {
    GroupEntries(rows, false, k);
  }

  /** The whole export sheet with the two skipped rows, the totals two rows
      below the data. */
  method ExportSheet(services: seq<ServiceWithDrivers>) returns (sheet: Worksheet)
    ensures fresh(sheet)
    ensures sheet.rows == Sheet(services) && sheet.merges == DataMerges(services)
  {
    sheet := new Worksheet();
    var currentRow := WriteServices(sheet, services);
    var skipTo, totalsRow := WriteTotals(sheet, services, currentRow);
  }

  // ---------------------------------------------------------------------
  // What the layout guarantees

  lemma {:induction false} RowsUpToLength(services: seq<ServiceWithDrivers>, n: nat)
    requires n <= |services|
    ensures |RowsUpTo(services, n)| == RowCount(services, n)
  {
    if n > 0 {
      RowsUpToLength(services, n - 1);
      var before, block := RowsUpTo(services, n - 1), ServiceBlock(services[n - 1], n - 1);
      assert RowsUpTo(services, n) == before + block;
      assert |block| == 1 + |services[n - 1].additionalDrivers|;
    }
  }

  /** The rows of the first n services are the first rows of those of the
      first m. */
  lemma {:induction false} RowsPrefixAt(services: seq<ServiceWithDrivers>, n: nat, m: nat, k: nat)
    requires n <= m <= |services| && k < |RowsUpTo(services, n)|
    ensures |RowsUpTo(services, n)| <= |RowsUpTo(services, m)|
    ensures RowsUpTo(services, m)[k] == RowsUpTo(services, n)[k]
  {
    if n < m {
      RowsPrefixAt(services, n, m - 1, k);
      var before, block := RowsUpTo(services, m - 1), ServiceBlock(services[m - 1], m - 1);
      assert RowsUpTo(services, m) == before + block;
      assert (before + block)[k] == before[k];
    }
  }

  /** Service i occupies the rows right after those of the services before
      it: its principal row, then its additional drivers in order, all in the
      fill of its parity. */
  lemma BlockPlacement(services: seq<ServiceWithDrivers>, i: nat, k: int)
    requires i < |services|
    requires var start := |RowsUpTo(services, i)|; start <= k <= start + |services[i].additionalDrivers|
    ensures var start, s := |RowsUpTo(services, i)|, services[i];
            && k < |DataRows(services)|
            && DataRows(services)[k] ==
               if k == start then PrincipalRow(s, ServiceFill(i))
               else ExtraDriverRow(s.additionalDrivers[k - start - 1], DriversFill(i))
  {
    var s := services[i];
    var before, block := RowsUpTo(services, i), ServiceBlock(s, i);
    RowsPrefixAt(services, i + 1, |services|, k);
    assert DataRows(services)[k] == block[k - |before|];
  }

  /** Consecutive services alternate between the two fills. */
  lemma FillsAlternate(i: nat)
    ensures ServiceFill(i) != ServiceFill(i + 1) && DriversFill(i) != DriversFill(i + 1)
    ensures ServiceFill(i) == ServiceFill(i + 2) && DriversFill(i) == DriversFill(i + 2)
  {
  }

  predicate IsPrincipalRow(rows: seq<SheetRow>, n: int) {
    2 <= n < |rows| + 2 && rows[n - 2].PrincipalRow?
  }

  /** A merge covers exactly one service's block: it starts at a principal
      row, every other row it covers is an additional driver's row, and the
      row after it is not. It never touches the driver or reason column. */
  predicate CoversOneBlock(rows: seq<SheetRow>, m: Merge) {
    && m.column != 'C' && m.column != 'D' && m.column in MergedColumns
    && 2 <= m.fromRow < m.toRow < |rows| + 2
    && IsPrincipalRow(rows, m.fromRow)
    && (forall i :: m.fromRow - 2 < i <= m.toRow - 2 ==> rows[i].ExtraDriverRow?)
    && (m.toRow + 1 == |rows| + 2 || IsPrincipalRow(rows, m.toRow + 1))
  }

  /** A merge keeps covering one block when the next service's block follows. */
  lemma CoversOneBlockExtends(rows: seq<SheetRow>, s: ServiceWithDrivers, index: nat, m: Merge)
    requires CoversOneBlock(rows, m)
    ensures CoversOneBlock(rows + ServiceBlock(s, index), m)
  {
    var more := ServiceBlock(s, index);
    assert more[0].PrincipalRow?;
    assert forall i :: 0 <= i < |rows| ==> (rows + more)[i] == rows[i];
  }

  lemma BlockCovers(prefix: seq<SheetRow>, s: ServiceWithDrivers, index: nat, m: Merge)
    requires m in BlockMerges(s, 2 + |prefix|)
    ensures CoversOneBlock(prefix + ServiceBlock(s, index), m)
  {
    var rows := prefix + ServiceBlock(s, index);
    var extra := ExtraRows(s.additionalDrivers, DriversFill(index));
    assert rows[|prefix|] == PrincipalRow(s, ServiceFill(index));
    forall i | m.fromRow - 2 < i <= m.toRow - 2
      ensures rows[i].ExtraDriverRow?
    {
      assert rows[i] == extra[i - 1 - |prefix|];
    }
  }

  /** A merge of the first n services covers exactly one of their blocks. */
  lemma {:induction false} MergeCoversBlockUpTo(services: seq<ServiceWithDrivers>, n: nat, m: Merge)
    requires n <= |services| && m in MergesUpTo(services, n)
    ensures CoversOneBlock(RowsUpTo(services, n), m)
  {
    var earlier, before := MergesUpTo(services, n - 1), RowsUpTo(services, n - 1);
    assert MergesUpTo(services, n) == earlier + BlockMerges(services[n - 1], 2 + |before|);
    if m in earlier {
      MergeCoversBlockUpTo(services, n - 1, m);
    }
    CoversAfterBlock(before, earlier, services[n - 1], n - 1, m);
    assert RowsUpTo(services, n) == before + ServiceBlock(services[n - 1], n - 1);
  }

  /** A merge of the services so far, or of the block that follows them,
      covers one block once that block is written. */
  lemma CoversAfterBlock(before: seq<SheetRow>, earlier: seq<Merge>, s: ServiceWithDrivers, index: nat, m: Merge)
    requires m in earlier + BlockMerges(s, 2 + |before|)
    requires m in earlier ==> CoversOneBlock(before, m)
    ensures CoversOneBlock(before + ServiceBlock(s, index), m)
  {
    if m in earlier {
      CoversOneBlockExtends(before, s, index, m);
    } else {
      BlockCovers(before, s, index, m);
    }
  }

  /** A merge of the export covers exactly one service's rows. */
  lemma MergeCoversBlock(services: seq<ServiceWithDrivers>, m: Merge)
    requires m in DataMerges(services)
    ensures CoversOneBlock(DataRows(services), m)
  {
    MergeCoversBlockUpTo(services, |services|, m);
  }

  /** Every merged range of the export covers exactly one service's rows. */
  lemma MergesCoverBlocks(services: seq<ServiceWithDrivers>)
    ensures forall m :: m in DataMerges(services) ==> CoversOneBlock(DataRows(services), m)
  {
    forall m | m in DataMerges(services)
      ensures CoversOneBlock(DataRows(services), m)
    {
      MergeCoversBlock(services, m);
    }
  }

  /** How many of the first n services have an additional driver. */
  function ServicesWithExtraDrivers(services: seq<ServiceWithDrivers>, n: nat): nat
    requires n <= |services|
  {
    if n == 0 then 0
    else ServicesWithExtraDrivers(services, n - 1) + (if |services[n - 1].additionalDrivers| > 0 then 1 else 0)
  }

  /** Eleven merges for each service with an additional driver, none for the
      others. */
  lemma {:induction false} MergeCount(services: seq<ServiceWithDrivers>, n: nat)
    requires n <= |services|
    ensures |MergesUpTo(services, n)| == 11 * ServicesWithExtraDrivers(services, n)
  {
    if n > 0 {
      MergeCount(services, n - 1);
      BlockMergesLength(services[n - 1], 2 + |RowsUpTo(services, n - 1)|);
    }
  }

  lemma BlockMergesLength(service: ServiceWithDrivers, start: int)
    ensures |BlockMerges(service, start)| == if |service.additionalDrivers| > 0 then 11 else 0
  {
  }

  /** The sheet as written puts TOTAL DE VIAJES right after the last data
      row, two rows above the row currentRow names. */
  lemma TotalsAsWrittenMissSkip(services: seq<ServiceWithDrivers>)
    ensures SheetAsWritten(services)[|DataRows(services)|] == TripsTotalRow(NatToString(|services|))
    ensures |DataRows(services)| + 2 == SkipTarget(services) - 2
  {
  }

  /** With the two rows skipped, TOTAL DE VIAJES sits at the row currentRow
      names, below two empty rows, and every row above them is a data row. */
  lemma TotalsAtSkipTarget(services: seq<ServiceWithDrivers>)
    ensures Sheet(services)[SkipTarget(services) - 2] == TripsTotalRow(NatToString(|services|))
    ensures Sheet(services)[SkipTarget(services) - 4] == EmptyRow && Sheet(services)[SkipTarget(services) - 3] == EmptyRow
    ensures Sheet(services)[..|DataRows(services)|] == DataRows(services)
  {
    var data, totals := DataRows(services), TotalsRows(services);
    var sheet := data + [EmptyRow, EmptyRow] + totals;
    assert sheet[|data| + 2] == totals[0];
    assert sheet[|data|] == EmptyRow && sheet[|data| + 1] == EmptyRow;
    assert sheet[..|data|] == data;
  }

  /** As written, an empty closed week still exports, and its only row below
      the header is TOTAL DE VIAJES: 0. */
  lemma EmptyWeekSheetAsWritten()
    ensures SheetAsWritten([]) == [TripsTotalRow("0")]
  {
    assert NatToString(0) == "0";
  }

  /** With the two rows skipped, an empty closed week exports the two empty
      rows and TOTAL DE VIAJES: 0. */
  lemma EmptyWeekSheet()
    ensures Sheet([]) == [EmptyRow, EmptyRow, TripsTotalRow("0")]
  {
    assert NatToString(0) == "0";
  }

  // ---------------------------------------------------------------------
  // File name

  /** toString().padStart(2, '0'). */
  function Pad2(n: nat): (s: string)
    ensures AllDigits(s)
  {
    var t := NatToString(n);
    if |t| < 2 then "0" + t else t
  }

  lemma Pad2Value(n: nat)
    requires n < 100
    ensures ParseNat(Pad2(n)) == Some(n) && |Pad2(n)| == 2
  {
    var t := NatToString(n);
    if n >= 10 {
      assert |NatToString(n / 10)| == 1;
    }
    DigitsValueOfNatToString(n);
    if |t| < 2 {
      assert ("0" + t)[..1] == "0";
      assert DigitsValue("0") == 0;
    }
  }

  /** dd-mm-yyyy of a date's local day, month and year. */
  function FormatDate(day: nat, month: nat, year: nat): string {
    Pad2(day) + "-" + Pad2(month) + "-" + NatToString(year)
  }

  function ExportFileName(startDay: nat, startMonth: nat, startYear: nat, endDay: nat, endMonth: nat, endYear: nat): string {
    "reporte_viajes_semana_" + FormatDate(startDay, startMonth, startYear) + "_" + FormatDate(endDay, endMonth, endYear) + ".xlsx"
  }

  /** The day, month and year can be read back from a formatted date. */
  lemma FormatDateReadsBack(day: nat, month: nat, year: nat)
    requires day < 100 && month < 100
    ensures var s := FormatDate(day, month, year);
            && |s| == 6 + |NatToString(year)|
            && ParseNat(s[..2]) == Some(day) && s[2] == '-'
            && ParseNat(s[3..5]) == Some(month) && s[5] == '-'
            && ParseNat(s[6..]) == Some(year)
  {
    var s := FormatDate(day, month, year);
    Pad2Value(day);
    Pad2Value(month);
    ParseNatToString(year);
    assert s[..2] == Pad2(day);
    assert s[3..5] == Pad2(month);
    assert s[6..] == NatToString(year);
  }
}
