/**
  The record list screen (src/components/Gastos/ListarGastos.jsx): deleting a
  record, the edit modal with its one-field-at-a-time form, the
  merge-then-replace save, and the rows written to the spreadsheet export.
  Records are plain objects here, maps from property names to values, so that
  the spread merge of the save keeps its exact key-by-key behaviour.
*/
module Listar {
  import opened Calendar
  import opened Js
  import opened Seqs
  import opened Lookups
  import opened Format

  /** A record as a JavaScript object: property name to value. */
  type Record = map<string, Value>

  /** The keys of the edit form (`formValues`). Note that the four ids are kept under
      `divisa`, `tipotransaccion`, `metodopago` and `categoria`, not under the record's `…_id` keys. */
  const FormKeys: set<string> :=
    {"descripcion", "monto", "fecha", "divisa", "tipotransaccion", "metodopago", "categoria"}

  /** The record's own keys for the four ids. */
  const IdKeys: set<string> := {"divisa_id", "tipostransaccion_id", "metodopago_id", "categoria_id"}

  /** The form before any record is opened: every field empty. */
  const EmptyForm: Record := map k | k in FormKeys :: Text("")

  // ------------------------------------------------------------ delete

  /** `gastos.filter(gasto => gasto.id !== id)`. */
  function RemoveById(gastos: seq<Record>, id: Value): (r: seq<Record>)
    ensures IsSubsequence(r, gastos)
    ensures forall x :: x in r <==> x in gastos && Get(x, "id") != id
    ensures forall x :: multiset(r)[x] == if Get(x, "id") != id then multiset(gastos)[x] else 0
  {
    if gastos == [] then []
    else
      assert gastos == [gastos[0]] + gastos[1..];
      if Get(gastos[0], "id") != id then [gastos[0]] + RemoveById(gastos[1..], id)
      else RemoveById(gastos[1..], id)
  }

  // ------------------------------------------------------------ edit form

  /** The form filled from a record (`handleShowModal`). */
  function FormFrom(g: Record): (f: Record)
    ensures f.Keys == FormKeys
    ensures f["descripcion"] == Get(g, "descripcion") && f["monto"] == Get(g, "monto") && f["fecha"] == Get(g, "fecha")
    ensures f["divisa"] == Get(g, "divisa_id") && f["tipotransaccion"] == Get(g, "tipostransaccion_id")
    ensures f["metodopago"] == Get(g, "metodopago_id") && f["categoria"] == Get(g, "categoria_id")
  {
    map[
      "descripcion" := Get(g, "descripcion"),
      "monto" := Get(g, "monto"),
      "fecha" := Get(g, "fecha"),
      "divisa" := Get(g, "divisa_id"),
      "tipotransaccion" := Get(g, "tipostransaccion_id"),
      "metodopago" := Get(g, "metodopago_id"),
      "categoria" := Get(g, "categoria_id")]
  }

  /** `{...selected, ...form}`: the selected record overridden key by key by the form. */
  function Merge(selected: Record, form: Record): (r: Record)
    ensures r.Keys == selected.Keys + form.Keys
    ensures forall k :: k in form ==> r[k] == form[k]
    ensures forall k :: k !in form ==> Get(r, k) == Get(selected, k)
  {
    selected + form
  }

  /** `gastos.map(gasto => gasto.id === id ? updated : gasto)`. */
  function ReplaceById(gastos: seq<Record>, id: Value, updated: Record): (r: seq<Record>)
    ensures |r| == |gastos|
    ensures forall i :: 0 <= i < |gastos| && Get(gastos[i], "id") == id ==> r[i] == updated
    ensures forall i :: 0 <= i < |gastos| && Get(gastos[i], "id") != id ==> r[i] == gastos[i]
  {
    if gastos == [] then []
    else [if Get(gastos[0], "id") == id then updated else gastos[0]] + ReplaceById(gastos[1..], id, updated)
  }

  /** The list after a successful save of `form` over `selected`. */
  function SavedList(gastos: seq<Record>, selected: Record, form: Record): (r: seq<Record>)
    ensures |r| == |gastos|
    ensures "id" !in form ==> forall i :: 0 <= i < |gastos| ==>
              r[i] == if Get(gastos[i], "id") == Get(selected, "id") then Merge(selected, form) else gastos[i]
  {
    var updated := Merge(selected, form);
    ReplaceById(gastos, Get(updated, "id"), updated)
  }

  /** A form with the modal's keys cannot change the record's four `…_id` fields: the
      save keeps them, whatever currency, type, method or category was chosen. */
  lemma SaveKeepsIdFields(selected: Record, form: Record)
    requires form.Keys == FormKeys
    ensures forall k :: k in IdKeys ==> Get(Merge(selected, form), k) == Get(selected, k)
    ensures forall k :: k in form ==> Merge(selected, form)[k] == form[k]
  {
  }

  /** Saving an opened record with no edits leaves each of its own fields as it was;
      it only gains the four form keys that hold the ids. */
  lemma SaveWithoutEditsKeepsFields(g: Record)
    ensures forall k :: k !in {"divisa", "tipotransaccion", "metodopago", "categoria"} ==>
              Get(Merge(g, FormFrom(g)), k) == Get(g, k)
    ensures Merge(g, FormFrom(g)).Keys == g.Keys + FormKeys
  {
    var m := Merge(g, FormFrom(g));
    forall k | k !in {"divisa", "tipotransaccion", "metodopago", "categoria"}
      ensures Get(m, k) == Get(g, k)
    {
      if k in FormKeys {
        assert k in {"descripcion", "monto", "fecha"};
      }
    }
  }

  /** Replacing by id is idempotent once the replacement carries that id, and keeps every id. */
  lemma {:induction false} ReplaceByIdIdempotent(gastos: seq<Record>, id: Value, updated: Record)
    requires Get(updated, "id") == id
    ensures ReplaceById(ReplaceById(gastos, id, updated), id, updated) == ReplaceById(gastos, id, updated)
    ensures forall i :: 0 <= i < |gastos| ==> Get(ReplaceById(gastos, id, updated)[i], "id") == Get(gastos[i], "id")
  {
    if gastos != [] {
      ReplaceByIdIdempotent(gastos[1..], id, updated);
      assert ReplaceById(gastos, id, updated)[1..] == ReplaceById(gastos[1..], id, updated);
    }
  }

  // ------------------------------------------------------------ export

  /** One spreadsheet row (`exportToExcel`). */
  datatype ExportRow = ExportRow(
    descripcion: Value, monto: Value, fecha: string,
    divisa: string, tipoTransaccion: string, metodoPago: string, categoria: string)

  /** `formatDate(gasto.fecha)`. `Day` stands for a value `new Date` reads as that day; any other
      value stands for one it cannot read, whose UTC parts all print as `NaN`. */
  function FormatFecha(v: Value): (r: string)
    ensures v.Day? && 1000 <= v.date.year <= 9999 ==> ParseDdMmYyyy(r) == Some(v.date)
    ensures v.Day? ==> |r| >= 7 && r[2] == '/' && r[5] == '/'
    ensures !v.Day? ==> r == "NaN/NaN/NaN"
    ensures v.Day? ==> r == FormatDate(v.date)
  {
    assert v.Day? && 1000 <= v.date.year <= 9999 ==> ParseDdMmYyyy(FormatDate(v.date)) == Some(v.date) by {
      if v.Day? && 1000 <= v.date.year <= 9999 { FormatDateReadsBack(v.date); }
    }
    match v
    case Day(d) => FormatDate(d)
    case _ => "NaN/NaN/NaN"
  }

  /** One record's row: its description and amount as they are, its date as `dd/mm/yyyy`
      (which reads back as the same day), and each lookup column the description of the first
      entry with an equal id, or `N/A` when there is none or it is empty. */
  function ToExportRow(g: Record, divisas: seq<LookupEntry>, tipos: seq<LookupEntry>,
                       metodos: seq<LookupEntry>, categorias: seq<LookupEntry>): (r: ExportRow)
    ensures r.descripcion == Get(g, "descripcion") && r.monto == Get(g, "monto")
    ensures r.divisa == DescripcionOr(divisas, Get(g, "divisa_id"), "N/A")
    ensures r.tipoTransaccion == DescripcionOr(tipos, Get(g, "tipostransaccion_id"), "N/A")
    ensures r.metodoPago == DescripcionOr(metodos, Get(g, "metodopago_id"), "N/A")
    ensures r.categoria == DescripcionOr(categorias, Get(g, "categoria_id"), "N/A")
    ensures Get(g, "fecha").Day? && 1000 <= Get(g, "fecha").date.year <= 9999 ==>
              ParseDdMmYyyy(r.fecha) == Some(Get(g, "fecha").date)
    ensures Get(g, "fecha").Day? ==> r.fecha == FormatDate(Get(g, "fecha").date)
    ensures !Get(g, "fecha").Day? ==> r.fecha == "NaN/NaN/NaN"
  {
    var fecha := Get(g, "fecha");
    var row := ExportRow(Get(g, "descripcion"), Get(g, "monto"), FormatFecha(fecha),
                         DescripcionOr(divisas, Get(g, "divisa_id"), "N/A"),
                         DescripcionOr(tipos, Get(g, "tipostransaccion_id"), "N/A"),
                         DescripcionOr(metodos, Get(g, "metodopago_id"), "N/A"),
                         DescripcionOr(categorias, Get(g, "categoria_id"), "N/A"));
    row
  }

  /** The export (`gastos.map(...)`): one row per record, in list order. */
  function ExportRows(gastos: seq<Record>, divisas: seq<LookupEntry>, tipos: seq<LookupEntry>,
                      metodos: seq<LookupEntry>, categorias: seq<LookupEntry>): (rows: seq<ExportRow>)
    ensures |rows| == |gastos|
    ensures forall i :: 0 <= i < |gastos| ==> rows[i] == ToExportRow(gastos[i], divisas, tipos, metodos, categorias)
  {
    seq(|gastos|, i requires 0 <= i < |gastos| => ToExportRow(gastos[i], divisas, tipos, metodos, categorias))
  }

  // ------------------------------------------------------------ screen state

  /** The five parallel fetches, or the failure that discards them. */
  datatype ListLoad =
    | Fetched(gastos: seq<Record>, categorias: seq<LookupEntry>, tiposTransaccion: seq<LookupEntry>,
              metodosPago: seq<LookupEntry>, divisas: seq<LookupEntry>)
    | FetchFailed

  class ListarGastos {
    var gastos: seq<Record>
    var categorias: seq<LookupEntry>
    var tiposTransaccion: seq<LookupEntry>
    var metodosPago: seq<LookupEntry>
    var divisas: seq<LookupEntry>
    var showModal: bool
    var modalType: string
    var selectedGasto: Option<Record>
    var formValues: Record
    var usuarioId: Value

    /** Mounting the screen with the user id read from the session token. */
    constructor(usuarioId: Value)
      ensures this.usuarioId == usuarioId
      ensures gastos == [] && categorias == [] && tiposTransaccion == [] && metodosPago == [] && divisas == []
      ensures !showModal && modalType == "" && selectedGasto == None && formValues == EmptyForm
    {
      this.usuarioId := usuarioId;
      gastos, categorias, tiposTransaccion, metodosPago, divisas := [], [], [], [], [];
      showModal, modalType, selectedGasto, formValues := false, "", None, EmptyForm;
    }

    /** `fetchData`: with a user id, the five lists are replaced together; a failure changes nothing. */
    method FetchData(load: ListLoad)
      modifies this
      ensures usuarioId == old(usuarioId) && showModal == old(showModal) && modalType == old(modalType)
      ensures selectedGasto == old(selectedGasto) && formValues == old(formValues)
      ensures IsFalsy(usuarioId) || load.FetchFailed? ==>
                gastos == old(gastos) && categorias == old(categorias) && tiposTransaccion == old(tiposTransaccion)
                && metodosPago == old(metodosPago) && divisas == old(divisas)
      ensures !IsFalsy(usuarioId) && load.Fetched? ==>
                gastos == load.gastos && categorias == load.categorias && tiposTransaccion == load.tiposTransaccion
                && metodosPago == load.metodosPago && divisas == load.divisas
    {
      if !IsFalsy(usuarioId) && load.Fetched? {
        gastos := load.gastos;
        categorias := load.categorias;
        tiposTransaccion := load.tiposTransaccion;
        metodosPago := load.metodosPago;
        divisas := load.divisas;
      }
    }

    /** `handleEliminarGasto`: once the remote delete succeeds the records with that id leave the
        list; when it throws the list is untouched. */
    method HandleEliminarGasto(id: Value, deleteFails: bool)
      modifies this`gastos
      ensures deleteFails ==> gastos == old(gastos)
      ensures !deleteFails ==> gastos == RemoveById(old(gastos), id)
    {
      if !deleteFails {
        gastos := RemoveById(gastos, id);
      }
    }

    /** `handleShowModal`: select the record and copy its fields into the form. */
    method HandleShowModal(kind: string, gasto: Record)
      modifies this`modalType, this`selectedGasto, this`formValues, this`showModal
      ensures modalType == kind && selectedGasto == Some(gasto) && showModal
      ensures formValues == FormFrom(gasto)
    {
      modalType := kind;
      selectedGasto := Some(gasto);
      formValues := FormFrom(gasto);
      showModal := true;
    }

    /** `handleCloseModal`: hide the modal and drop the selection; the form keeps its values. */
    method HandleCloseModal()
      modifies this`showModal, this`selectedGasto
      ensures !showModal && selectedGasto == None
    {
      showModal := false;
      selectedGasto := None;
    }

    /** `handleInputChange`: the named form field takes the typed value; no other field changes. */
    method HandleInputChange(name: string, value: Value)
      modifies this`formValues
      ensures formValues == old(formValues)[name := value]
      ensures forall k :: k != name ==> Get(formValues, k) == Get(old(formValues), k)
    {
      formValues := formValues[name := value];
    }

    /** `handleSaveChanges`: with a selected record, the merged record replaces every entry with
        its id once the remote update succeeds, and the modal closes. Without a selection only the
        modal closes. When the update throws nothing changes. */
    method HandleSaveChanges(updateFails: bool)
      modifies this`gastos, this`showModal, this`selectedGasto
      ensures old(selectedGasto).None? ==> gastos == old(gastos) && !showModal && selectedGasto == None
      ensures old(selectedGasto).Some? && updateFails ==>
                gastos == old(gastos) && showModal == old(showModal) && selectedGasto == old(selectedGasto)
      ensures old(selectedGasto).Some? && !updateFails ==>
                gastos == SavedList(old(gastos), old(selectedGasto).value, formValues)
                && !showModal && selectedGasto == None
      ensures |gastos| == |old(gastos)|
    {
      if selectedGasto.Some? {
        var updated := Merge(selectedGasto.value, formValues);
        if updateFails {
          return;
        }
        gastos := ReplaceById(gastos, Get(updated, "id"), updated);
      }
      HandleCloseModal();
    }

    /** The spreadsheet rows for the current list. */
    function ExportToExcel(): (rows: seq<ExportRow>)
      reads this
      ensures |rows| == |gastos|
      ensures forall i :: 0 <= i < |gastos| ==>
                rows[i] == ToExportRow(gastos[i], divisas, tiposTransaccion, metodosPago, categorias)
    {
      ExportRows(gastos, divisas, tiposTransaccion, metodosPago, categorias)
    }
  }
}
