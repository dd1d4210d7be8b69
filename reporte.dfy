/**
  The report screen (src/components/Gastos/ReporteGastos.jsx): the fetched
  records joined with the payment-method and transaction-type tables, the
  five-criterion filter, the per-currency summary totals and the chart series.
*/
module Reporte {
  import opened Calendar
  import opened Js
  import opened Seqs
  import opened Lookups
  import opened Format

  /** A record as the backend returns it. `divisa` and `tipo` are the descriptions of
      its nested `Divisa` and `TiposTransaccione` associations; `monto` is in cents. */
  datatype Gasto = Gasto(
    id: Value,
    descripcion: string,
    monto: int,
    fecha: CalendarDate,
    metodopago_id: Value,
    tipostransaccion_id: Value,
    divisa: string,
    tipo: string)

  /** A record of the report: every field of the fetched record plus the two resolved descriptions. */
  datatype Row = Row(gasto: Gasto, metodoPagoDescripcion: string, tipoTransaccionDescripcion: string)

  const NotAvailable := "N/A"

  // ------------------------------------------------------------ enrichment

  /** The join for one record (`{...gasto, metodoPagoDescripcion, tipoTransaccionDescripcion}`). */
  function Enrich(g: Gasto, metodos: seq<LookupEntry>, tipos: seq<LookupEntry>): (r: Row)
    ensures r.gasto == g
    ensures forall k :: FirstWithId(metodos, g.metodopago_id, k) ==>
              r.metodoPagoDescripcion == if metodos[k].descripcion != "" then metodos[k].descripcion else NotAvailable
    ensures forall k :: FirstWithId(tipos, g.tipostransaccion_id, k) ==>
              r.tipoTransaccionDescripcion == if tipos[k].descripcion != "" then tipos[k].descripcion else NotAvailable
    ensures (forall j :: 0 <= j < |metodos| ==> metodos[j].id != g.metodopago_id) ==>
              r.metodoPagoDescripcion == NotAvailable
    ensures (forall j :: 0 <= j < |tipos| ==> tipos[j].id != g.tipostransaccion_id) ==>
              r.tipoTransaccionDescripcion == NotAvailable
  {
    Row(g,
        DescripcionOr(metodos, g.metodopago_id, NotAvailable),
        DescripcionOr(tipos, g.tipostransaccion_id, NotAvailable))
  }

  /** `gastos.map(...)`: one enriched row per record, in the same order. */
  function EnrichAll(gastos: seq<Gasto>, metodos: seq<LookupEntry>, tipos: seq<LookupEntry>): (r: seq<Row>)
    ensures |r| == |gastos|
    ensures forall i :: 0 <= i < |gastos| ==> r[i] == Enrich(gastos[i], metodos, tipos)
  {
    if gastos == [] then []
    else [Enrich(gastos[0], metodos, tipos)] + EnrichAll(gastos[1..], metodos, tipos)
  }

  /** Enrichment adds descriptions and keeps the records: dropping them gives the fetched list back. */
  lemma {:induction false} EnrichKeepsRecords(gastos: seq<Gasto>, metodos: seq<LookupEntry>, tipos: seq<LookupEntry>)
    ensures Records(EnrichAll(gastos, metodos, tipos)) == gastos
  {
    if gastos != [] {
      EnrichKeepsRecords(gastos[1..], metodos, tipos);
    }
  }

  function Records(rows: seq<Row>): seq<Gasto> {
    if rows == [] then [] else [rows[0].gasto] + Records(rows[1..])
  }

  // ------------------------------------------------------------ filter

  /** The filter form's values. A criterion is off when absent or empty (`!x`);
      the two dates are the `new Date(...)` readings of the date inputs. */
  datatype Filters = Filters(
    descripcion: Option<string>,
    fechaInicio: Option<CalendarDate>,
    fechaFin: Option<CalendarDate>,
    metodoPago: Option<string>,
    tipoTransaccion: Option<string>)

  const NoFilters := Filters(None, None, None, None, None)

  predicate IsOff(c: Option<string>) {
    c.None? || c.value == ""
  }

  /** `item.x === parseInt(c)`; `NaN` equals nothing. */
  predicate IdMatches(v: Value, c: string) {
    var p := ParseInt(c);
    p.Some? && v == Num(p.value)
  }

  predicate DescripcionMatches(g: Gasto, f: Filters) {
    IsOff(f.descripcion) || Includes(ToLower(g.descripcion), ToLower(f.descripcion.value))
  }

  predicate FechaMatches(g: Gasto, f: Filters) {
    && (f.fechaInicio.None? || AtOrBefore(f.fechaInicio.value, g.fecha))
    && (f.fechaFin.None? || AtOrBefore(g.fecha, f.fechaFin.value))
  }

  predicate IdsMatch(g: Gasto, f: Filters) {
    && (IsOff(f.metodoPago) || IdMatches(g.metodopago_id, f.metodoPago.value))
    && (IsOff(f.tipoTransaccion) || IdMatches(g.tipostransaccion_id, f.tipoTransaccion.value))
  }

  /** The `datos.filter` predicate: the five criteria combined with AND. */
  predicate Matches(row: Row, f: Filters) {
    DescripcionMatches(row.gasto, f) && FechaMatches(row.gasto, f) && IdsMatch(row.gasto, f)
  }

  /** `datos.filter(item => Matches(item, f))`: the matching rows in their original order. */
  function FilterRows(rows: seq<Row>, f: Filters): (r: seq<Row>)
    ensures IsSubsequence(r, rows)
    ensures forall x :: x in r <==> x in rows && Matches(x, f)
    ensures forall x :: multiset(r)[x] == if Matches(x, f) then multiset(rows)[x] else 0
  {
    if rows == [] then []
    else
      assert rows == [rows[0]] + rows[1..];
      if Matches(rows[0], f) then [rows[0]] + FilterRows(rows[1..], f)
      else FilterRows(rows[1..], f)
  }

  /** With every criterion off the filter keeps the whole list. */
  lemma {:induction false} NoFiltersKeepsAll(rows: seq<Row>, f: Filters)
    requires IsOff(f.descripcion) && f.fechaInicio.None? && f.fechaFin.None?
    requires IsOff(f.metodoPago) && IsOff(f.tipoTransaccion)
    ensures FilterRows(rows, f) == rows
  {
    if rows != [] { NoFiltersKeepsAll(rows[1..], f); }
  }

  /** `more` keeps every criterion of `less` that is on, with the same value, and may turn on others. */
  predicate Narrows(more: Filters, less: Filters) {
    && (IsOff(less.descripcion) || more.descripcion == less.descripcion)
    && (less.fechaInicio.None? || more.fechaInicio == less.fechaInicio)
    && (less.fechaFin.None? || more.fechaFin == less.fechaFin)
    && (IsOff(less.metodoPago) || more.metodoPago == less.metodoPago)
    && (IsOff(less.tipoTransaccion) || more.tipoTransaccion == less.tipoTransaccion)
  }

  /** Turning on more criteria never enlarges the result: it is a subsequence of the coarser one. */
  lemma {:induction false} NarrowingFiltersShrinks(rows: seq<Row>, more: Filters, less: Filters)
    requires Narrows(more, less)
    ensures IsSubsequence(FilterRows(rows, more), FilterRows(rows, less))
  {
    if rows != [] {
      NarrowingFiltersShrinks(rows[1..], more, less);
      var a, b := FilterRows(rows[1..], more), FilterRows(rows[1..], less);
      if Matches(rows[0], more) {
        assert Matches(rows[0], less);
        assert ([rows[0]] + a)[1..] == a && ([rows[0]] + b)[1..] == b;
      } else if Matches(rows[0], less) {
        assert ([rows[0]] + b)[1..] == b;
      }
    }
  }

  /** The description criterion: the lower-cased query occurs in the lower-cased description,
      so it matches whatever the case of either side. */
  lemma DescripcionCriterion(row: Row, q: string)
    requires q != ""
    ensures Matches(row, NoFilters.(descripcion := Some(q)))
        <==> exists i: nat :: OccursAt(ToLower(row.gasto.descripcion), ToLower(q), i)
    ensures Matches(row, NoFilters.(descripcion := Some(q))) <==> Matches(row, NoFilters.(descripcion := Some(ToUpper(q))))
  {
    IncludesIffOccurs(ToLower(row.gasto.descripcion), ToLower(q));
    ToLowerIgnoresCase(q);
  }

  /** The date criteria are inclusive bounds: a record dated on a bound is kept. */
  lemma DateBoundsInclusive(row: Row, from: CalendarDate, to: CalendarDate)
    ensures Matches(row, NoFilters.(fechaInicio := Some(from), fechaFin := Some(to)))
        <==> AtOrBefore(from, row.gasto.fecha) && AtOrBefore(row.gasto.fecha, to)
    ensures Matches(row, NoFilters.(fechaInicio := Some(row.gasto.fecha), fechaFin := Some(row.gasto.fecha)))
  {
  }

  /** The payment-method criterion chosen from the select (the option value is `String(id)`)
      keeps exactly the rows whose `metodopago_id` is that id; likewise for the transaction type. */
  lemma {:induction false} IdCriteriaSelectById(rows: seq<Row>, id: int)
    ensures forall x :: x in FilterRows(rows, NoFilters.(metodoPago := Some(IntToString(id))))
                   <==> x in rows && x.gasto.metodopago_id == Num(id)
    ensures forall x :: x in FilterRows(rows, NoFilters.(tipoTransaccion := Some(IntToString(id))))
                   <==> x in rows && x.gasto.tipostransaccion_id == Num(id)
  {
    forall x: Row {
      OneIdCriterion(x, id);
    }
  }

  /** One row against a filter with only an id criterion set to `String(id)`. */
  lemma OneIdCriterion(x: Row, id: int)
    ensures Matches(x, NoFilters.(metodoPago := Some(IntToString(id)))) <==> x.gasto.metodopago_id == Num(id)
    ensures Matches(x, NoFilters.(tipoTransaccion := Some(IntToString(id)))) <==> x.gasto.tipostransaccion_id == Num(id)
  {
    ParseIntOfIntToString(id);
  }

  // ------------------------------------------------------------ totals

  /** The summary cards: ARS split into expense and income, USD, USDT and ARS netted. */
  datatype Totals = Totals(egresoARS: int, ingresoARS: int, totalUSD: int, totalUSDT: int, totalARS: int)

  /** `filter(tipo === t && divisa === d).reduce((sum, x) => sum + x.monto, 0)`. */
  function SumOf(rows: seq<Row>, tipo: string, divisa: string): (total: int)
    ensures (forall i :: 0 <= i < |rows| ==> !(rows[i].gasto.tipo == tipo && rows[i].gasto.divisa == divisa))
              ==> total == 0
    ensures (forall i :: 0 <= i < |rows| ==> rows[i].gasto.monto >= 0) ==> total >= 0
  {
    if rows == [] then 0
    else (if rows[0].gasto.tipo == tipo && rows[0].gasto.divisa == divisa then rows[0].gasto.monto else 0)
         + SumOf(rows[1..], tipo, divisa)
  }

  /** `filter(divisa === d).reduce(...)` adding "Ingreso" amounts and subtracting all others. */
  function NetOf(rows: seq<Row>, divisa: string): (total: int)
    ensures (forall i :: 0 <= i < |rows| ==> rows[i].gasto.divisa != divisa) ==> total == 0
    ensures (forall i :: 0 <= i < |rows| && rows[i].gasto.divisa == divisa ==> rows[i].gasto.tipo == "Ingreso")
              ==> total == SumOf(rows, "Ingreso", divisa)
  {
    if rows == [] then 0
    else
      var g := rows[0].gasto;
      (if g.divisa != divisa then 0 else if g.tipo == "Ingreso" then g.monto else -g.monto)
      + NetOf(rows[1..], divisa)
  }

  /** Amounts in currency `d` whose type is anything but "Ingreso". */
  function OutflowOf(rows: seq<Row>, divisa: string): (total: int)
    ensures (forall i :: 0 <= i < |rows| && rows[i].gasto.divisa == divisa ==> rows[i].gasto.tipo == "Ingreso")
              ==> total == 0
    ensures (forall i :: 0 <= i < |rows| ==> rows[i].gasto.monto >= 0) ==> total >= 0
  {
    if rows == [] then 0
    else (if rows[0].gasto.divisa == divisa && rows[0].gasto.tipo != "Ingreso" then rows[0].gasto.monto else 0)
         + OutflowOf(rows[1..], divisa)
  }

  /** The `totals` object. Each netted total is that currency's income minus everything else
      in it; in ARS that income is the `ingresoARS` shown beside it. */
  function SummaryTotals(rows: seq<Row>): (t: Totals)
    ensures t.egresoARS == SumOf(rows, "Egreso", "ARS") && t.ingresoARS == SumOf(rows, "Ingreso", "ARS")
    ensures t.totalARS == t.ingresoARS - OutflowOf(rows, "ARS")
    ensures t.totalUSD == SumOf(rows, "Ingreso", "USD") - OutflowOf(rows, "USD")
    ensures t.totalUSDT == SumOf(rows, "Ingreso", "USDT") - OutflowOf(rows, "USDT")
  {
    NetIsIncomeMinusOutflow(rows, "ARS");
    NetIsIncomeMinusOutflow(rows, "USD");
    NetIsIncomeMinusOutflow(rows, "USDT");
    Totals(SumOf(rows, "Egreso", "ARS"), SumOf(rows, "Ingreso", "ARS"),
           NetOf(rows, "USD"), NetOf(rows, "USDT"), NetOf(rows, "ARS"))
  }

  /** A netted total is the income in that currency minus every other amount in it. */
  lemma {:induction false} NetIsIncomeMinusOutflow(rows: seq<Row>, divisa: string)
    ensures NetOf(rows, divisa) == SumOf(rows, "Ingreso", divisa) - OutflowOf(rows, divisa)
  {
    if rows != [] { NetIsIncomeMinusOutflow(rows[1..], divisa); }
  }

  /** When every record of a currency is "Ingreso" or "Egreso", its outflow is its expense sum. */
  lemma {:induction false} OutflowIsEgreso(rows: seq<Row>, divisa: string)
    requires forall i :: 0 <= i < |rows| && rows[i].gasto.divisa == divisa ==>
               rows[i].gasto.tipo == "Ingreso" || rows[i].gasto.tipo == "Egreso"
    ensures OutflowOf(rows, divisa) == SumOf(rows, "Egreso", divisa)
  {
    if rows != [] { OutflowIsEgreso(rows[1..], divisa); }
  }

  /** `totalARS == ingresoARS - egresoARS` whenever every ARS record is "Ingreso" or "Egreso". */
  lemma TotalARSBalances(rows: seq<Row>)
    requires forall i :: 0 <= i < |rows| && rows[i].gasto.divisa == "ARS" ==>
               rows[i].gasto.tipo == "Ingreso" || rows[i].gasto.tipo == "Egreso"
    ensures var t := SummaryTotals(rows); t.totalARS == t.ingresoARS - t.egresoARS
  {
    NetIsIncomeMinusOutflow(rows, "ARS");
    OutflowIsEgreso(rows, "ARS");
  }

  /** A sum reads only the records, not the descriptions the join added to them. */
  lemma {:induction false} SumOfReadsRecords(a: seq<Row>, b: seq<Row>, tipo: string, divisa: string)
    requires Records(a) == Records(b)
    ensures SumOf(a, tipo, divisa) == SumOf(b, tipo, divisa)
  {
    if a != [] && b != [] {
      assert Records(a)[0] == a[0].gasto && Records(b)[0] == b[0].gasto;
      assert Records(a)[1..] == Records(a[1..]) && Records(b)[1..] == Records(b[1..]);
      SumOfReadsRecords(a[1..], b[1..], tipo, divisa);
    }
  }

  /** So does a netted total. */
  lemma {:induction false} NetOfReadsRecords(a: seq<Row>, b: seq<Row>, divisa: string)
    requires Records(a) == Records(b)
    ensures NetOf(a, divisa) == NetOf(b, divisa)
  {
    if a != [] && b != [] {
      assert Records(a)[0] == a[0].gasto && Records(b)[0] == b[0].gasto;
      assert Records(a)[1..] == Records(a[1..]) && Records(b)[1..] == Records(b[1..]);
      NetOfReadsRecords(a[1..], b[1..], divisa);
    }
  }

  /** The totals read the backend's own descriptions of each record, so they do not depend
      on the payment-method and transaction-type tables the join used. */
  lemma TotalsIgnoreLookups(gastos: seq<Gasto>, m1: seq<LookupEntry>, t1: seq<LookupEntry>,
                            m2: seq<LookupEntry>, t2: seq<LookupEntry>)
    ensures SummaryTotals(EnrichAll(gastos, m1, t1)) == SummaryTotals(EnrichAll(gastos, m2, t2))
  {
    var a, b := EnrichAll(gastos, m1, t1), EnrichAll(gastos, m2, t2);
    EnrichKeepsRecords(gastos, m1, t1);
    EnrichKeepsRecords(gastos, m2, t2);
    SumOfReadsRecords(a, b, "Egreso", "ARS");
    SumOfReadsRecords(a, b, "Ingreso", "ARS");
    NetOfReadsRecords(a, b, "USD");
    NetOfReadsRecords(a, b, "USDT");
    NetOfReadsRecords(a, b, "ARS");
  }

  /** Two ARS records: an expense of 100 on 2024-01-15 and an income of 50 on 2024-01-20. */
  const Expense := Gasto(Num(1), "Super", 100, Date(2024, 1, 15), Num(1), Num(2), "ARS", "Egreso")
  const Income := Gasto(Num(2), "Sueldo", 50, Date(2024, 1, 20), Num(1), Num(1), "ARS", "Ingreso")

  /** Their totals: ARS expense 100 and income 50, nothing in USD or USDT, and -50 netted in ARS. */
  lemma TwoRecordTotals(metodos: seq<LookupEntry>, tipos: seq<LookupEntry>)
    ensures SummaryTotals(EnrichAll([Expense, Income], metodos, tipos)) == Totals(100, 50, 0, 0, -50)
  {
    var rows := EnrichAll([Expense, Income], metodos, tipos);
    assert rows[0].gasto == Expense && rows[1].gasto == Income;
    assert rows[1..] == [rows[1]] && rows[1..][1..] == [];
    assert SumOf(rows, "Egreso", "ARS") == 100 + SumOf(rows[1..], "Egreso", "ARS") == 100;
    assert SumOf(rows, "Ingreso", "ARS") == SumOf(rows[1..], "Ingreso", "ARS") == 50;
    assert NetOf(rows, "USD") == NetOf(rows[1..], "USD") == 0;
    assert NetOf(rows, "USDT") == NetOf(rows[1..], "USDT") == 0;
    assert NetOf(rows, "ARS") == -100 + NetOf(rows[1..], "ARS") == -50;
  }

  /** A lower date bound of 2024-01-18 keeps only the income. */
  lemma TwoRecordDateFilter(metodos: seq<LookupEntry>, tipos: seq<LookupEntry>)
    ensures var rows := EnrichAll([Expense, Income], metodos, tipos);
      FilterRows(rows, NoFilters.(fechaInicio := Some(Date(2024, 1, 18)))) == [rows[1]]
  {
    var rows := EnrichAll([Expense, Income], metodos, tipos);
    var f := NoFilters.(fechaInicio := Some(Date(2024, 1, 18)));
    assert rows[0].gasto == Expense && rows[1].gasto == Income;
    assert rows[1..] == [rows[1]] && rows[1..][1..] == [];
    assert !Matches(rows[0], f) && Matches(rows[1], f);
  }

  // ------------------------------------------------------------ chart

  /** The bar chart: one label and one amount per shown row. */
  datatype Chart = Chart(labels: seq<string>, data: seq<int>)

  function ChartSeries(rows: seq<Row>): (c: Chart)
    ensures |c.labels| == |rows| && |c.data| == |rows|
    ensures forall i :: 0 <= i < |rows| ==> c.data[i] == rows[i].gasto.monto
    ensures forall i :: 0 <= i < |rows| ==> c.labels[i] == FormatDate(rows[i].gasto.fecha)
    ensures forall i :: 0 <= i < |rows| && 1000 <= rows[i].gasto.fecha.year <= 9999 ==>
              ParseDdMmYyyy(c.labels[i]) == Some(rows[i].gasto.fecha)
  {
    var c := Chart(seq(|rows|, i requires 0 <= i < |rows| => FormatDate(rows[i].gasto.fecha)),
                   seq(|rows|, i requires 0 <= i < |rows| => rows[i].gasto.monto));
    assert forall i :: 0 <= i < |rows| && 1000 <= rows[i].gasto.fecha.year <= 9999 ==>
             ParseDdMmYyyy(c.labels[i]) == Some(rows[i].gasto.fecha) by {
      forall i | 0 <= i < |rows| && 1000 <= rows[i].gasto.fecha.year <= 9999 {
        FormatDateReadsBack(rows[i].gasto.fecha);
      }
    }
    c
  }

  // ------------------------------------------------------------ screen state

  /** The result of the three parallel fetches, or the failure that discards them. */
  datatype ReportLoad = Fetched(gastos: seq<Gasto>, metodos: seq<LookupEntry>, tipos: seq<LookupEntry>)
                      | FetchFailed

  /** The screen's state: the joined records, the rows on show and the two lookup tables. */
  class ReporteGastos {
    var datos: seq<Row>
    var filteredData: seq<Row>
    var metodosPago: seq<LookupEntry>
    var tiposTransaccion: seq<LookupEntry>
    var userId: Value

    /** Mounting the screen with the user id read from the session token. */
    constructor(userId: Value)
      ensures this.userId == userId
      ensures datos == [] && filteredData == [] && metodosPago == [] && tiposTransaccion == []
    {
      this.userId := userId;
      datos, filteredData := [], [];
      metodosPago, tiposTransaccion := [], [];
    }

    /** The totals cards, always computed from `datos`. */
    function Totals(): (t: Totals)
      reads this
      ensures t.egresoARS == SumOf(datos, "Egreso", "ARS") && t.ingresoARS == SumOf(datos, "Ingreso", "ARS")
      ensures t.totalARS == t.ingresoARS - OutflowOf(datos, "ARS")
      ensures t.totalUSD == SumOf(datos, "Ingreso", "USD") - OutflowOf(datos, "USD")
      ensures t.totalUSDT == SumOf(datos, "Ingreso", "USDT") - OutflowOf(datos, "USDT")
    {
      SummaryTotals(datos)
    }

    /** The chart, drawn from the rows on show. */
    function ChartData(): (c: Chart)
      reads this
      ensures |c.labels| == |filteredData| && |c.data| == |filteredData|
      ensures forall i :: 0 <= i < |filteredData| ==>
                c.labels[i] == FormatDate(filteredData[i].gasto.fecha) && c.data[i] == filteredData[i].gasto.monto
    {
      ChartSeries(filteredData)
    }

    /** `fetchData`, run only while a user id is set: on success both lists become the
      joined records; a failure is logged and changes nothing. */
    method FetchData(load: ReportLoad)
      modifies this
      ensures userId == old(userId)
      ensures IsFalsy(userId) || load.FetchFailed? ==>
                datos == old(datos) && filteredData == old(filteredData)
                && metodosPago == old(metodosPago) && tiposTransaccion == old(tiposTransaccion)
      ensures !IsFalsy(userId) && load.Fetched? ==>
                && datos == EnrichAll(load.gastos, load.metodos, load.tipos)
                && filteredData == datos
                && metodosPago == load.metodos && tiposTransaccion == load.tipos
    {
      if !IsFalsy(userId) {
        match load
        case Fetched(gastos, metodos, tipos) =>
          var joined := EnrichAll(gastos, metodos, tipos);
          datos := joined;
          filteredData := joined;
          metodosPago := metodos;
          tiposTransaccion := tipos;
        case FetchFailed =>
      }
    }

    /** `onSubmit`: show the rows of `datos` that meet the criteria; the totals stay as they were. */
    method OnSubmit(f: Filters)
      modifies this`filteredData
      ensures filteredData == FilterRows(datos, f)
      ensures Totals() == old(Totals())
    {
      filteredData := FilterRows(datos, f);
    }

    /** `handleReset`: show every row again. */
    method HandleReset()
      modifies this`filteredData
      ensures filteredData == datos
      ensures Totals() == old(Totals())
    {
      filteredData := datos;
    }
  }
}
