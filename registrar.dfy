/**
  The new-record form (src/components/Gastos/RegistrarGastos.jsx): the rules on
  the `fecha` and `monto` fields, the default option of each select, the
  loading flag, and the submit step that rewrites the date and attaches the user.
*/
module Registrar {
  import opened Calendar
  import opened Js
  import opened Lookups
  import opened Format

  // ------------------------------------------------------------ fecha

  const FechaRequired := "La fecha es obligatoria."
  const FechaBadFormat := "El formato debe ser DD/MM/YYYY."
  const FechaInvalid := "La fecha no es válida."

  /** The `fecha` rules in the order the form library checks them: required, then the
      pattern, then the date-fns validity check. `None` means accepted. */
  function ValidateFecha(s: string): (err: Option<string>)
    ensures err.None? <==> ParseDdMmYyyy(s).Some?
    ensures err == Some(FechaRequired) <==> s == ""
    ensures err == Some(FechaBadFormat) <==> s != "" && !FechaPattern(s)
    ensures err == Some(FechaInvalid) <==> FechaPattern(s) && ParseDdMmYyyy(s).None?
  {
    if s == "" then Some(FechaRequired)
    else if !FechaPattern(s) then Some(FechaBadFormat)
    else if ParseDdMmYyyy(s).None? then Some(FechaInvalid)
    else None
  }

  /** An accepted `fecha` is exactly a day of the calendar written as `dd/MM/yyyy`. */
  lemma AcceptedFechaIsADay(d: CalendarDate)
    requires 1000 <= d.year <= 9999
    ensures ValidateFecha(FormatDate(d)) == None
  {
    FormatDateReadsBack(d);
  }

  /** The 31st of a 30-day month, and the 29th of February outside leap years, are refused
      with the validity message although they have the right shape. */
  lemma ImpossibleDaysRejected()
    ensures ValidateFecha("31/04/2024") == Some(FechaInvalid)
    ensures ValidateFecha("29/02/2023") == Some(FechaInvalid)
  {
    ReadFields("31/04/2024", 3, 1, 0, 4, 4);
    ReadFields("29/02/2023", 2, 9, 0, 2, 3);
  }

  /** The 29th of February of a leap year is accepted; a day or month of one digit is refused
      for its shape. */
  lemma LeapDayAccepted()
    ensures ValidateFecha("29/02/2024") == None
    ensures ValidateFecha("1/2/2024") == Some(FechaBadFormat)
  {
    ReadFields("29/02/2024", 2, 9, 0, 2, 4);
  }

  /** A `dd/mm/202k` text is judged by the day, month and year its digits denote. */
  lemma ReadFields(s: string, d1: nat, d2: nat, m1: nat, m2: nat, k: nat)
    requires d1 < 10 && d2 < 10 && m1 < 10 && m2 < 10 && k < 10
    requires s == [DigitChar(d1), DigitChar(d2), '/', DigitChar(m1), DigitChar(m2), '/'] + "202" + [DigitChar(k)]
    ensures var date := Date(2020 + k, m1 * 10 + m2, d1 * 10 + d2);
      ValidateFecha(s) == if IsParsableDate(date) then None else Some(FechaInvalid)
  {
    YearValue(s, k);
    TwoDigits(s[..2]);
    TwoDigits(s[3..5]);
  }

  lemma TwoDigits(t: string)
    requires |t| == 2 && AllDigits(t)
    ensures DigitsValue(t) == (t[0] as int - '0' as int) * 10 + (t[1] as int - '0' as int)
  {
  }

  /** The year field of a `dd/mm/202k` text reads as 2020 + k. */
  lemma YearValue(s: string, k: nat)
    requires |s| == 10 && k < 10 && s[6..] == "202" + [DigitChar(k)]
    ensures AllDigits(s[6..]) && DigitsValue(s[6..]) == 2020 + k
  {
    var y := s[6..];
    assert y[..1][..0] == [];
    assert DigitsValue(y[..1]) == 2;
    assert y[..2][..1] == y[..1];
    assert DigitsValue(y[..2]) == 20;
    assert y[..3][..2] == y[..2];
    assert DigitsValue(y[..3]) == 202;
    assert y[..4 - 1] == y[..3];
  }

  // ------------------------------------------------------------ rewrite

  /** date-fns `format(date, "yyyy-MM-dd")`: the year zero-padded to four digits. */
  function FormatIso(d: CalendarDate): (r: string)
    requires d.year >= 1
    ensures d.year <= 9999 ==>
              && |r| == 10 && r[4] == '-' && r[7] == '-'
              && AllDigits(r[..4]) && DigitsValue(r[..4]) == d.year
              && AllDigits(r[5..7]) && DigitsValue(r[5..7]) == d.month
              && AllDigits(r[8..]) && DigitsValue(r[8..]) == d.day
  {
    var y, m, dd := PadStart(NatToString(d.year), 4, '0'), Pad2(d.month), Pad2(d.day);
    Pad2Value(d.month);
    Pad2Value(d.day);
    assert d.year <= 9999 ==> |y| == 4 && AllDigits(y) && DigitsValue(y) == d.year by {
      if d.year <= 9999 {
        assert Pow10(4) == 10000;
        PadStartValue(d.year, 4);
      }
    }
    assert d.year <= 9999 ==> var r := y + "-" + m + "-" + dd; r[..4] == y && r[5..7] == m && r[8..] == dd by {
      if d.year <= 9999 { DashLayout(y, m, dd); }
    }
    y + "-" + m + "-" + dd
  }

  /** `format(parse(fecha, "dd/MM/yyyy"), "yyyy-MM-dd")`; `None` when the date is invalid,
      where date-fns throws. The result carries the same digits: year, month, day. */
  function ToIsoFecha(s: string): (r: Option<string>)
    ensures r.Some? <==> ParseDdMmYyyy(s).Some?
    ensures r.Some? ==> |r.value| == 10 && r.value[4] == '-' && r.value[7] == '-'
                        && r.value[..4] == s[6..] && r.value[5..7] == s[3..5] && r.value[8..] == s[..2]
  {
    match ParseDdMmYyyy(s)
    case None => None
    case Some(d) =>
      IsoOfParsed(s, d);
      DashLayout(s[6..], s[3..5], s[..2]);
      Some(FormatIso(d))
  }

  /** The `yyyy-MM-dd` text of a parsed date is the same digits in the other order. */
  lemma IsoOfParsed(s: string, d: CalendarDate)
    requires ParseDdMmYyyy(s) == Some(d)
    ensures FormatIso(d) == s[6..] + "-" + s[3..5] + "-" + s[..2]
  {
    PadStartRestoresDigits(s[6..]);
    PadStartRestoresDigits(s[3..5]);
    PadStartRestoresDigits(s[..2]);
  }

  lemma DashLayout(y: string, m: string, d: string)
    requires |y| == 4 && |m| == 2 && |d| == 2
    ensures var r := y + "-" + m + "-" + d;
      |r| == 10 && r[4] == '-' && r[7] == '-' && r[..4] == y && r[5..7] == m && r[8..] == d
  {
    var r := y + "-" + m + "-" + d;
    assert r[..4] == y;
    assert r[5..7] == m;
    assert r[8..] == d;
  }

  // ------------------------------------------------------------ monto

  /** The `monto` input as the form hands it over: empty, a number (in cents), or text
      that is not a number. */
  datatype MontoInput = Blank | Amount(cents: int) | NotANumber

  const MontoRequired := "El monto es obligatorio."
  const MontoTooSmall := "El monto debe ser mayor a 0."
  const MontoNotNumber := "El monto debe ser un número válido."

  /** The `monto` rules: required, at least 0.01, and numeric (`NaN` is not below the
      minimum, so only the last rule catches it). */
  function ValidateMonto(m: MontoInput): (err: Option<string>)
    ensures err.None? <==> m.Amount? && m.cents >= 1
    ensures err == Some(MontoRequired) <==> m.Blank?
    ensures err == Some(MontoTooSmall) <==> m.Amount? && m.cents < 1
    ensures err == Some(MontoNotNumber) <==> m.NotANumber?
  {
    match m
    case Blank => Some(MontoRequired)
    case Amount(c) => if c < 1 then Some(MontoTooSmall) else None
    case NotANumber => Some(MontoNotNumber)
  }

  // ------------------------------------------------------------ defaults

  /** The four `setValue` defaults: each select takes the id of the first entry with its
      description, and is left as it was when there is none; the date takes today's. */
  function WithDefaults(values: map<string, Value>, categorias: seq<LookupEntry>, mediosDePago: seq<LookupEntry>,
                        divisas: seq<LookupEntry>, tipos: seq<LookupEntry>, today: string): (r: map<string, Value>)
    ensures "fecha" in r && r["fecha"] == Text(today)
    ensures ("divisa_id" !in values && forall j :: 0 <= j < |divisas| ==> divisas[j].descripcion != "ARS")
              ==> "divisa_id" !in r
  {
    var v1 := SetDefault(values, "tipostransaccion_id", tipos, "Egreso");
    var v2 := SetDefault(v1, "categoria_id", categorias, "Salidas");
    var v3 := SetDefault(v2, "metodopago_id", mediosDePago, "Efectivo");
    var v4 := SetDefault(v3, "divisa_id", divisas, "ARS");
    v4["fecha" := Text(today)]
  }

  /** The value a select ends with: the id of the first entry described `d`, or its
      `current` value when no entry has that description. */
  function Chosen(entries: seq<LookupEntry>, d: string, current: Value): (v: Value)
    ensures forall k :: FirstWithDescripcion(entries, d, k) ==> v == entries[k].id
    ensures (forall j :: 0 <= j < |entries| ==> entries[j].descripcion != d) ==> v == current
  {
    var k := IndexOfDescripcion(entries, d);
    if k < |entries| then entries[k].id else current
  }

  lemma SetDefaultChooses(values: map<string, Value>, key: string, entries: seq<LookupEntry>, d: string)
    ensures Get(SetDefault(values, key, entries, d), key) == Chosen(entries, d, Get(values, key))
  {
  }

  /** Each select ends with the first entry carrying its description ("Egreso", "Salidas",
      "Efectivo", "ARS"), or keeps its value when there is none; the date is today's. */
  lemma DefaultsPickFirstMatch(values: map<string, Value>, categorias: seq<LookupEntry>, mediosDePago: seq<LookupEntry>,
                               divisas: seq<LookupEntry>, tipos: seq<LookupEntry>, today: string)
    ensures var r := WithDefaults(values, categorias, mediosDePago, divisas, tipos, today);
      && Get(r, "tipostransaccion_id") == Chosen(tipos, "Egreso", Get(values, "tipostransaccion_id"))
      && Get(r, "categoria_id") == Chosen(categorias, "Salidas", Get(values, "categoria_id"))
      && Get(r, "metodopago_id") == Chosen(mediosDePago, "Efectivo", Get(values, "metodopago_id"))
      && Get(r, "divisa_id") == Chosen(divisas, "ARS", Get(values, "divisa_id"))
      && Get(r, "fecha") == Text(today)
  {
    var v1 := SetDefault(values, "tipostransaccion_id", tipos, "Egreso");
    var v2 := SetDefault(v1, "categoria_id", categorias, "Salidas");
    var v3 := SetDefault(v2, "metodopago_id", mediosDePago, "Efectivo");
    var v4 := SetDefault(v3, "divisa_id", divisas, "ARS");
    assert Get(v4, "tipostransaccion_id") == Chosen(tipos, "Egreso", Get(values, "tipostransaccion_id")) by {
      SetDefaultChooses(values, "tipostransaccion_id", tipos, "Egreso");
      assert Get(v4, "tipostransaccion_id") == Get(v3, "tipostransaccion_id") == Get(v2, "tipostransaccion_id");
    }
    assert Get(v4, "categoria_id") == Chosen(categorias, "Salidas", Get(values, "categoria_id")) by {
      SetDefaultChooses(v1, "categoria_id", categorias, "Salidas");
      assert Get(v4, "categoria_id") == Get(v3, "categoria_id") == Get(v2, "categoria_id");
    }
    assert Get(v4, "metodopago_id") == Chosen(mediosDePago, "Efectivo", Get(values, "metodopago_id")) by {
      SetDefaultChooses(v2, "metodopago_id", mediosDePago, "Efectivo");
      assert Get(v4, "metodopago_id") == Get(v3, "metodopago_id");
    }
    SetDefaultChooses(v3, "divisa_id", divisas, "ARS");
  }

  /** The defaults touch the four selects and the date and no other field. */
  lemma DefaultsLeaveOtherFields(values: map<string, Value>, categorias: seq<LookupEntry>, mediosDePago: seq<LookupEntry>,
                                 divisas: seq<LookupEntry>, tipos: seq<LookupEntry>, today: string, other: string)
    requires other !in {"tipostransaccion_id", "categoria_id", "metodopago_id", "divisa_id", "fecha"}
    ensures Get(WithDefaults(values, categorias, mediosDePago, divisas, tipos, today), other) == Get(values, other)
  {
    var v1 := SetDefault(values, "tipostransaccion_id", tipos, "Egreso");
    var v2 := SetDefault(v1, "categoria_id", categorias, "Salidas");
    var v3 := SetDefault(v2, "metodopago_id", mediosDePago, "Efectivo");
    var v4 := SetDefault(v3, "divisa_id", divisas, "ARS");
    assert Get(v1, other) == Get(values, other);
    assert Get(v2, other) == Get(v1, other);
    assert Get(v3, other) == Get(v2, other);
    assert Get(v4, other) == Get(v3, other);
  }

  // ------------------------------------------------------------ screen state

  /** The object the form library hands to `onSubmit`, which changes it in place. */
  class Draft {
    var fields: map<string, Value>

    constructor(fields: map<string, Value>)
      ensures this.fields == fields
    {
      this.fields := fields;
    }
  }

  /** The select lists before the load: one "Cargando..." option with an empty id. */
  const Placeholder: seq<LookupEntry> := [LookupEntry(Text(""), "Cargando...")]

  class RegistrarGastos {
    var categorias: seq<LookupEntry>
    var mediosDePago: seq<LookupEntry>
    var divisas: seq<LookupEntry>
    var tipoTransacciones: seq<LookupEntry>
    var userId: Value
    var loading: bool
    /** The form's field values, as `setValue` sets them. */
    var values: map<string, Value>
    /** The records handed to `registrarGasto`, oldest first. */
    var sent: seq<map<string, Value>>

    /** Mounting the form with the user id read from the session token. */
    constructor(userId: Value, values: map<string, Value>)
      ensures this.userId == userId && this.values == values && loading && sent == []
      ensures categorias == Placeholder && mediosDePago == Placeholder
      ensures divisas == Placeholder && tipoTransacciones == Placeholder
    {
      this.userId := userId;
      this.values := values;
      loading := true;
      sent := [];
      categorias, mediosDePago, divisas, tipoTransacciones := Placeholder, Placeholder, Placeholder, Placeholder;
    }

    /** The loading effect: nothing without a user id; otherwise `loading` ends whether
        the four fetches succeed or fail, and on success the lists and defaults are set. */
    method FetchData(load: LookupLoad, today: string)
      modifies this`categorias, this`mediosDePago, this`divisas, this`tipoTransacciones, this`values, this`loading
      ensures IsFalsy(userId) ==> unchanged(this)
      ensures !IsFalsy(userId) ==> !loading
      ensures !IsFalsy(userId) && load.LoadFailed? ==>
                unchanged(this`values, this`categorias, this`mediosDePago, this`divisas, this`tipoTransacciones)
      ensures !IsFalsy(userId) && load.Loaded? ==>
                && categorias == load.categorias && mediosDePago == load.mediosDePago
                && divisas == load.divisas && tipoTransacciones == load.tipoTransacciones
                && values == WithDefaults(old(values), load.categorias, load.mediosDePago,
                                          load.divisas, load.tipoTransacciones, today)
    {
      if IsFalsy(userId) {
        return;
      }
      if load.Loaded? {
        Install(load.categorias, load.mediosDePago, load.divisas, load.tipoTransacciones, today);
      }
      loading := false;
    }

    /** The successful branch of `fetchData`: the four lists, then the `setValue` defaults. */
    method Install(c: seq<LookupEntry>, m: seq<LookupEntry>, d: seq<LookupEntry>, t: seq<LookupEntry>, today: string)
      modifies this`categorias, this`mediosDePago, this`divisas, this`tipoTransacciones, this`values
      ensures categorias == c && mediosDePago == m && divisas == d && tipoTransacciones == t
      ensures values == WithDefaults(old(values), c, m, d, t, today)
    {
      categorias, mediosDePago, divisas, tipoTransacciones := c, m, d, t;
      values := WithDefaults(values, c, m, d, t, today);
    }

    /** `onSubmit`: the draft's `fecha` is rewritten to `yyyy-MM-dd`; then, only when a user id is
        set, `usuario_id` is attached and the draft is sent. An invalid date throws before anything
        changes. */
    method OnSubmit(data: Draft)
      modifies data, this`sent
      ensures var f := Get(old(data.fields), "fecha");
        !(f.Text? && ToIsoFecha(f.s).Some?) ==> data.fields == old(data.fields) && sent == old(sent)
      ensures var f := Get(old(data.fields), "fecha");
        f.Text? && ToIsoFecha(f.s).Some? ==>
          var rewritten := old(data.fields)["fecha" := Text(ToIsoFecha(f.s).value)];
          if IsFalsy(userId) then data.fields == rewritten && sent == old(sent)
          else data.fields == rewritten["usuario_id" := userId] && sent == old(sent) + [data.fields]
    {
      var f := Get(data.fields, "fecha");
      if !f.Text? {
        return;
      }
      var iso := ToIsoFecha(f.s);
      if iso.None? {
        return;
      }
      data.fields := data.fields["fecha" := Text(iso.value)];
      if !IsFalsy(userId) {
        data.fields := data.fields["usuario_id" := userId];
        sent := sent + [data.fields];
      }
    }
  }
}
