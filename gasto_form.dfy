/**
  The shared form hook (src/hooks/useGastoForm.ts): the four lookup lists, the
  `loading` flag, and the default option each select gets once the lists arrive.
*/
module GastoForm {
  import opened Js
  import opened Lookups
  import Registrar

  /** The five `setValue` calls of `fetchData`: each select gets the id of the first entry with
      its description, or `""` (also when that id is falsy); the date gets today's. */
  function HookDefaults(values: map<string, Value>, categorias: seq<LookupEntry>, mediosDePago: seq<LookupEntry>,
                        divisas: seq<LookupEntry>, tipos: seq<LookupEntry>, today: string): (r: map<string, Value>)
    ensures "tipostransaccion_id" in r && "categoria_id" in r && "metodopago_id" in r && "divisa_id" in r
    ensures "fecha" in r && r["fecha"] == Text(today)
  {
    values["tipostransaccion_id" := DefaultIdOrEmpty(tipos, "Egreso")]
          ["categoria_id" := DefaultIdOrEmpty(categorias, "Salidas")]
          ["metodopago_id" := DefaultIdOrEmpty(mediosDePago, "Efectivo")]
          ["divisa_id" := DefaultIdOrEmpty(divisas, "ARS")]
          ["fecha" := Text(today)]
  }

  /** Unlike the new-record form, the hook always sets the four selects: to the first
      match's id when it is truthy, and to `""` when nothing matches or the id is falsy. */
  lemma HookDefaultsSelect(values: map<string, Value>, categorias: seq<LookupEntry>, mediosDePago: seq<LookupEntry>,
                           divisas: seq<LookupEntry>, tipos: seq<LookupEntry>, today: string)
    ensures var r := HookDefaults(values, categorias, mediosDePago, divisas, tipos, today);
      && Get(r, "tipostransaccion_id") == DefaultIdOrEmpty(tipos, "Egreso")
      && Get(r, "categoria_id") == DefaultIdOrEmpty(categorias, "Salidas")
      && Get(r, "metodopago_id") == DefaultIdOrEmpty(mediosDePago, "Efectivo")
      && Get(r, "divisa_id") == DefaultIdOrEmpty(divisas, "ARS")
      && Get(r, "fecha") == Text(today)
  {
  }

  /** The hook touches the four selects and the date and no other field. */
  lemma HookLeavesOtherFields(values: map<string, Value>, categorias: seq<LookupEntry>, mediosDePago: seq<LookupEntry>,
                              divisas: seq<LookupEntry>, tipos: seq<LookupEntry>, today: string, other: string)
    requires other !in {"tipostransaccion_id", "categoria_id", "metodopago_id", "divisa_id", "fecha"}
    ensures Get(HookDefaults(values, categorias, mediosDePago, divisas, tipos, today), other) == Get(values, other)
  {
  }

  /** Where the first entry with the description has a truthy id, the hook and the
      new-record form pick the same default. */
  lemma HookAgreesWithForm(values: map<string, Value>, categorias: seq<LookupEntry>, mediosDePago: seq<LookupEntry>,
                           divisas: seq<LookupEntry>, tipos: seq<LookupEntry>, today: string, k: int)
    requires FirstWithDescripcion(divisas, "ARS", k) && !IsFalsy(divisas[k].id)
    ensures Get(HookDefaults(values, categorias, mediosDePago, divisas, tipos, today), "divisa_id")
         == Get(Registrar.WithDefaults(values, categorias, mediosDePago, divisas, tipos, today), "divisa_id")
  {
    Registrar.DefaultsPickFirstMatch(values, categorias, mediosDePago, divisas, tipos, today);
    HookDefaultsSelect(values, categorias, mediosDePago, divisas, tipos, today);
  }

  class UseGastoForm {
    var categorias: seq<LookupEntry>
    var mediosDePago: seq<LookupEntry>
    var divisas: seq<LookupEntry>
    var tipoTransacciones: seq<LookupEntry>
    var userId: Value
    var loading: bool
    /** The caller's form values, as the hook's `setValue` calls leave them. */
    var values: map<string, Value>

    /** The hook's first render, with the user id decoded from the session token
        (`Undefined` when there is no token). */
    constructor(userId: Value, values: map<string, Value>)
      ensures this.userId == userId && this.values == values && loading
      ensures categorias == [] && mediosDePago == [] && divisas == [] && tipoTransacciones == []
    {
      this.userId := userId;
      this.values := values;
      loading := true;
      categorias, mediosDePago, divisas, tipoTransacciones := [], [], [], [];
    }

    /** `fetchData`: without a user id nothing is loaded and `loading` stays as it was;
        otherwise it ends after both a successful and a failed load. */
    method FetchData(load: LookupLoad, today: string)
      modifies this`categorias, this`mediosDePago, this`divisas, this`tipoTransacciones, this`values, this`loading
      ensures IsFalsy(userId) ==> unchanged(this)
      ensures !IsFalsy(userId) ==> !loading
      ensures !IsFalsy(userId) && load.LoadFailed? ==>
                unchanged(this`values, this`categorias, this`mediosDePago, this`divisas, this`tipoTransacciones)
      ensures !IsFalsy(userId) && load.Loaded? ==>
                && categorias == load.categorias && mediosDePago == load.mediosDePago
                && divisas == load.divisas && tipoTransacciones == load.tipoTransacciones
                && values == HookDefaults(old(values), load.categorias, load.mediosDePago,
                                          load.divisas, load.tipoTransacciones, today)
    {
      if IsFalsy(userId) {
        return;
      }
      if load.Loaded? {
        Install(load.categorias, load.mediosDePago, load.divisas, load.tipoTransacciones, today);
      }
      loading := false;
    }

    /** The successful branch of `fetchData`: the four lists, then the `setValue` defaults. */
    method Install(c: seq<LookupEntry>, m: seq<LookupEntry>, d: seq<LookupEntry>, t: seq<LookupEntry>, today: string)
      modifies this`categorias, this`mediosDePago, this`divisas, this`tipoTransacciones, this`values
      ensures categorias == c && mediosDePago == m && divisas == d && tipoTransacciones == t
      ensures values == HookDefaults(old(values), c, m, d, t, today)
    {
      categorias, mediosDePago, divisas, tipoTransacciones := c, m, d, t;
      values := HookDefaults(values, c, m, d, t, today);
    }
  }
}
