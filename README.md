# app-gastos-fe, the in-memory layer, in Dafny

app-gastos-fe is a React front end for recording expenses and income ("gastos"). Each record has an
amount, a date, a currency ("divisa"), a transaction type ("Ingreso" or "Egreso"), a payment method
and a category. Most of the application is forms bound to REST calls. This project models the layer
that works on data once it has been fetched into memory, and proves what that layer does:

- **Report screen** (`Reporte`, from `ReporteGastos.jsx`). Records are joined with the
  payment-method and transaction-type tables, falling back to `"N/A"`. There is a filter with five
  criteria combined with AND: description substring, inclusive date range, payment-method id and
  transaction-type id. The summary totals split ARS into income and expense and net USD, USDT and
  ARS. The chart series shows the filtered rows. The screen's state is a class: `datos` and
  `filteredData` are replaced by `fetchData`, `onSubmit` and `handleReset`.
- **Record list** (`Listar`, from `ListarGastos.jsx`). It covers delete by id, the edit modal, the
  one-field form update, the save (`{...selected, ...formValues}` followed by replace by id) and the
  spreadsheet rows of the export. Records are JavaScript objects there, maps from property name to
  value, so the merge keeps its exact key-by-key behaviour.
- **Date formatting** (`Format`, from `helpers/format.ts`). `formatDate` prints a date's UTC day,
  month and year as `dd/mm/yyyy`. The module also holds the date-fns `dd/MM/yyyy` parse used by the
  forms. The same `formatDate` text appears in `ListarGastos.jsx` and `ReporteGastos.jsx`. All three
  copies are modelled once, as `Format.FormatDate`.
- **New-record form** (`Registrar`, from `RegistrarGastos.jsx`). It covers the `fecha` rules
  (required, pattern, date validity) and the `monto` rules. It covers the default option of each
  select and the `loading` flag. On submit, `fecha` is rewritten to `yyyy-MM-dd` and `usuario_id` is
  attached.
- **Sign-up** (`Usuarios`, from `RegisterUser.jsx`). It covers the username, password and e-mail
  rules, the error map, the field update, and the guard that keeps an invalid form from being sent.
- **Sign-in** (`Login`, from `Login.jsx`). It covers the translation of the back end's messages and
  the outcome of `handleLogin`.
- **Form hook** (`GastoForm`, from `useGastoForm.ts`). It covers the default ids and the `loading`
  flag.

Shared modules:

- `Calendar` holds calendar days and their order.
- `Js` holds JavaScript values and truthiness, plus `String(n)`, `padStart`, `parseInt`,
  `toLowerCase` and `includes` on ASCII text.
- `Seqs` holds subsequences.
- `Lookups` holds the two searches of a lookup table: by id and by description.

Conventions:

- Amounts are whole cents (`int`).
- A date is a day that exists in the proleptic Gregorian calendar.
- Ids and form values are the JavaScript-like `Value`, so `===`, `|| ""` and `|| "N/A"` behave as
  in the source.
- Remote calls and the clock are inputs:
  - the fetched lists arrive as a load outcome;
  - whether a delete or an update throws is a `bool`;
  - the sign-in and sign-up replies are datatypes;
  - today's date is a string.

Facts about the code that shape the model:

- The report filter has exactly the five criteria above. `ReporteGastos.jsx` has no amount bounds
  and no category criterion.
- The netted totals subtract every type other than "Ingreso", not only "Egreso".
- `ReporteGastos.jsx` computes no monthly or per-category aggregation.
- A record whose amount does not parse is not excluded from the totals. The code would sum `NaN`.
  In this model amounts are always numbers.

## Model

| member | source | states |
|---|---|---|
| Format.FormatDate | src/helpers/format.ts:2-8 | day, `/`, month, `/`, year in that order; day and month are two digits whose values are the UTC day and the 0-based UTC month plus one (so 1..12); the year is `String(year)`, unpadded: it parses back to the year, a non-negative year is plain digits with no leading zero (except year 0), a negative one is `-` and digits |
| Format.YearText | src/helpers/format.ts:6-7 | `String(year)` parses back to the year; for a non-negative year it is digits with no leading zero unless the year is 0; for a negative year it is `-` followed by digits not starting with 0 |
| Format.Pad2Value | src/helpers/format.ts:4-5 | `String(n).padStart(2, "0")` of a number below 100 is two digits denoting `n` |
| Format.FormatDateFourDigitYear | src/helpers/format.ts:6-7 | with a four-digit year the text is exactly 10 characters and ends with the year's digits |
| Format.ParseDdMmYyyy | src/components/Gastos/RegistrarGastos.jsx:204-206 | a parse succeeds if and only if the text has the `dd/mm/yyyy` shape and the day, month and year written there name an existing day in year 1 or later; it then gives exactly that day |
| Format.FormatDateReadsBack | src/helpers/format.ts:2-8 | reading `formatDate`'s output as `dd/MM/yyyy` gives back the same day, month and year (four-digit years) |
| Format.ReadDateFormatsBack | src/helpers/format.ts:2-8 | conversely, every accepted `dd/MM/yyyy` text without a leading zero in the year is exactly what `formatDate` prints for its date |
| Js.IncludesIffOccurs | src/components/Gastos/ReporteGastos.jsx:90 | `includes` holds exactly when the query occurs at some position of the text |
| Js.ParseInt | src/components/Gastos/ReporteGastos.jsx:93-95 | `parseInt` of empty text is `NaN` (`None`); digits read as their decimal value; `-` followed by digits reads as the negated value |
| Js.PadStartValue | src/helpers/format.ts:4-5 | `String(n).padStart(k, "0")` of a number below `10^k` is exactly `k` digits denoting `n` |
| Js.Utf16Length | src/components/Usuarios/RegisterUser.jsx:19-22 | `.length` counts UTF-16 code units: one character counts one unit, or two above U+FFFF; any text has between one and two units per character |
| Js.Utf16LengthConcat | src/components/Usuarios/RegisterUser.jsx:19-22 | the units of a concatenation are the sum of its parts' units, so with the one-character case every text's length is fixed character by character |
| Js.Utf16LengthMixed | src/components/Usuarios/RegisterUser.jsx:19-22 | `"ab😀".length` is 4 |
| Lookups.DescripcionOr | src/components/Gastos/ReporteGastos.jsx:54-59 | `find(id)?.descripcion \|\| fallback`: the first entry with an equal id gives its description, or the fallback when it is empty; no match gives the fallback |
| Lookups.DefaultIdOrEmpty | src/hooks/useGastoForm.ts:43-46 | `find(descripcion)?.id \|\| ""`: the first entry with the description gives its id when truthy; no match or a falsy id gives `""` |
| Lookups.SetDefault | src/components/Gastos/RegistrarGastos.jsx:67-88 | the conditional `setValue`: the key takes the first matching entry's id; with no match the values are unchanged; other keys never change |
| Reporte.Enrich | src/components/Gastos/ReporteGastos.jsx:52-60 | the record is kept whole; each description is that of the first lookup entry with an equal id, or `"N/A"` when that description is empty or no entry matches |
| Reporte.EnrichAll | src/components/Gastos/ReporteGastos.jsx:52-60 | one enriched row per record, same length, same order |
| Reporte.EnrichKeepsRecords | src/components/Gastos/ReporteGastos.jsx:52-60 | dropping the added descriptions gives the fetched list back |
| Reporte.FilterRows | src/components/Gastos/ReporteGastos.jsx:87-97 | the result is a subsequence of `datos` (order kept, nothing added) and holds exactly the rows meeting all criteria, each as many times as in `datos` |
| Reporte.NoFiltersKeepsAll | src/components/Gastos/ReporteGastos.jsx:87-97 | with every criterion empty or absent the filter returns `datos` unchanged |
| Reporte.NarrowingFiltersShrinks | src/components/Gastos/ReporteGastos.jsx:88-96 | turning on an extra criterion gives a subsequence of the previous result |
| Reporte.DescripcionCriterion | src/components/Gastos/ReporteGastos.jsx:89-90 | the description criterion is a substring test on lower-cased text, so the query's case does not matter |
| Reporte.DateBoundsInclusive | src/components/Gastos/ReporteGastos.jsx:91-92 | the two dates are inclusive bounds; a record dated on a bound is kept |
| Reporte.IdCriteriaSelectById | src/components/Gastos/ReporteGastos.jsx:93-95 | choosing an id in either select keeps exactly the rows whose id equals it |
| Reporte.OneIdCriterion | src/components/Gastos/ReporteGastos.jsx:93-95 | `parseInt` of the select's text of an id, compared with `===`, keeps a row if and only if its id is that number |
| Reporte.NetIsIncomeMinusOutflow | src/components/Gastos/ReporteGastos.jsx:121-147 | a netted total is the currency's "Ingreso" sum minus the sum of all its other amounts |
| Reporte.SumOf | src/components/Gastos/ReporteGastos.jsx:107-119 | the sum of the amounts of one type and currency: 0 when no row has both; never negative when no amount is |
| Reporte.NetOf | src/components/Gastos/ReporteGastos.jsx:121-147 | the netted total of a currency: 0 when it has no rows; equal to its "Ingreso" sum when every row in it is "Ingreso" |
| Reporte.OutflowOf | src/components/Gastos/ReporteGastos.jsx:121-147 | the amounts a netted total subtracts: 0 when every row in the currency is "Ingreso"; never negative when no amount is |
| Reporte.SummaryTotals | src/components/Gastos/ReporteGastos.jsx:106-148 | `egresoARS` and `ingresoARS` are the ARS "Egreso" and "Ingreso" sums; USD, USDT and ARS net totals are each currency's "Ingreso" sum minus its outflow |
| Reporte.OutflowIsEgreso | src/components/Gastos/ReporteGastos.jsx:107-112 | when a currency's records are all "Ingreso" or "Egreso", its outflow is its "Egreso" sum |
| Reporte.TotalARSBalances | src/components/Gastos/ReporteGastos.jsx:106-148 | `totalARS == ingresoARS - egresoARS` whenever every ARS record is "Ingreso" or "Egreso" |
| Reporte.SumOfReadsRecords | src/components/Gastos/ReporteGastos.jsx:106-119 | two row lists over the same records give the same type-and-currency sum |
| Reporte.NetOfReadsRecords | src/components/Gastos/ReporteGastos.jsx:120-147 | two row lists over the same records give the same netted total |
| Reporte.TotalsIgnoreLookups | src/components/Gastos/ReporteGastos.jsx:106-148 | the totals do not depend on the lookup tables used by the join |
| Reporte.TwoRecordTotals | src/components/Gastos/ReporteGastos.jsx:106-148 | an ARS expense of 100 and an ARS income of 50 give ARS expenses 100, ARS income 50, USD 0, USDT 0 and an ARS net of -50 |
| Reporte.TwoRecordDateFilter | src/components/Gastos/ReporteGastos.jsx:87-97 | of the same two records, a lower date bound that falls between them keeps only the later one |
| Reporte.ChartSeries | src/components/Gastos/ReporteGastos.jsx:151-159 | one label and one amount per shown row, in order; each label is `formatDate` of the row's day for every year, and for four-digit years it reads back as that day |
| Reporte.ReporteGastos.constructor | src/components/Gastos/ReporteGastos.jsx:37-41 | the screen starts with empty lists |
| Reporte.ReporteGastos.FetchData | src/components/Gastos/ReporteGastos.jsx:43-73 | only with a user id; on success `datos` and `filteredData` are both the joined records; a failure changes nothing |
| Reporte.ReporteGastos.OnSubmit | src/components/Gastos/ReporteGastos.jsx:83-99 | `filteredData` becomes the filtered `datos`; the totals do not change |
| Reporte.ReporteGastos.HandleReset | src/components/Gastos/ReporteGastos.jsx:101-104 | `filteredData` is `datos` again; the totals do not change |
| Reporte.ReporteGastos.Totals | src/components/Gastos/ReporteGastos.jsx:106-148 | the cards are computed from `datos`, never from the filtered rows: the ARS "Egreso" and "Ingreso" sums, and each currency's "Ingreso" sum minus its outflow |
| Reporte.ReporteGastos.ChartData | src/components/Gastos/ReporteGastos.jsx:151-160 | the chart is drawn from `filteredData`: one label per shown row, `formatDate` of its day, and its amount |
| Listar.RemoveById | src/components/Gastos/ListarGastos.jsx:77 | exactly the records whose id differs, in their original order, each as many times as before; none with the id remains |
| Listar.FormFrom | src/components/Gastos/ListarGastos.jsx:86-94 | the form has the seven form keys; description, amount and date are copied, and the four ids go under `divisa`, `tipotransaccion`, `metodopago`, `categoria` |
| Listar.Merge | src/components/Gastos/ListarGastos.jsx:114-117 | keys of the form take the form's value; every other key keeps the selected record's value |
| Listar.ReplaceById | src/components/Gastos/ListarGastos.jsx:119 | same length; entries with the id become the updated record; all others are untouched |
| Listar.SavedList | src/components/Gastos/ListarGastos.jsx:114-119 | same length; when the form has no `id` key, each entry with the selected record's id becomes the merged record and every other entry is untouched |
| Listar.SaveKeepsIdFields | src/components/Gastos/ListarGastos.jsx:31-39 | a form with the modal's keys cannot change `divisa_id`, `tipostransaccion_id`, `metodopago_id` or `categoria_id` |
| Listar.SaveWithoutEditsKeepsFields | src/components/Gastos/ListarGastos.jsx:83-117 | saving an opened record without edits keeps each of its fields; it only gains the four form keys |
| Listar.ReplaceByIdIdempotent | src/components/Gastos/ListarGastos.jsx:119 | replacing twice equals replacing once, and no entry's id changes |
| Listar.ToExportRow | src/components/Gastos/ListarGastos.jsx:129-137 | description and amount as they are; the date is `formatDate` of the record's day, which reads back as that day for four-digit years; each lookup column is the first entry with an equal id, or `N/A` |
| Listar.FormatFecha | src/components/Gastos/ListarGastos.jsx:13-19 | a date value prints as `Format.FormatDate` of its day for every year, so in the `dd/mm/…` layout and reading back as that day for four-digit years; a value that is not a date prints `NaN/NaN/NaN` |
| Listar.ExportRows | src/components/Gastos/ListarGastos.jsx:129-137 | one row per record, in list order |
| Listar.ListarGastos.constructor | src/components/Gastos/ListarGastos.jsx:23-41 | empty lists, modal closed, nothing selected, every form field empty |
| Listar.ListarGastos.FetchData | src/components/Gastos/ListarGastos.jsx:44-72 | only with a user id; on success the five lists are replaced together; a failure changes nothing |
| Listar.ListarGastos.HandleEliminarGasto | src/components/Gastos/ListarGastos.jsx:74-81 | after a successful delete the records with that id leave the list; when the delete throws the list is untouched |
| Listar.ListarGastos.HandleShowModal | src/components/Gastos/ListarGastos.jsx:83-96 | the record is selected, the form is filled from it, the modal opens |
| Listar.ListarGastos.HandleCloseModal | src/components/Gastos/ListarGastos.jsx:98-101 | the modal closes and the selection is cleared |
| Listar.ListarGastos.HandleInputChange | src/components/Gastos/ListarGastos.jsx:103-109 | only the named key of the form changes |
| Listar.ListarGastos.HandleSaveChanges | src/components/Gastos/ListarGastos.jsx:111-125 | with a selection and a successful update, the merged record replaces every entry with its id and the modal closes; without a selection only the modal closes; a failed update changes nothing; the length is kept |
| Listar.ListarGastos.ExportToExcel | src/components/Gastos/ListarGastos.jsx:127-137 | one spreadsheet row per record of the current list, in order, each built from the four current lookup lists |
| Registrar.ValidateFecha | src/components/Gastos/RegistrarGastos.jsx:198-207 | accepted exactly when the text parses as `dd/MM/yyyy`; empty text gives the required message, a wrong shape the format message, an impossible day the validity message |
| Registrar.AcceptedFechaIsADay | src/components/Gastos/RegistrarGastos.jsx:198-207 | every day with a four-digit year, written as `dd/mm/yyyy`, is accepted |
| Registrar.ImpossibleDaysRejected | src/components/Gastos/RegistrarGastos.jsx:198-207 | 31/04/2024 and 29/02/2023 have the right shape but are refused as invalid dates |
| Registrar.LeapDayAccepted | src/components/Gastos/RegistrarGastos.jsx:198-207 | 29/02/2024 is accepted; `1/2/2024` is refused for its shape, not as an invalid date |
| Registrar.ReadFields | src/components/Gastos/RegistrarGastos.jsx:198-207 | a `DD/MM/202Y` text built from digits is accepted exactly when the day, month and year it spells form a calendar date, and is otherwise refused as invalid |
| Registrar.ToIsoFecha | src/components/Gastos/RegistrarGastos.jsx:105-108 | defined exactly for valid dates; the `yyyy-MM-dd` text carries the same year, month and day digits |
| Registrar.FormatIso | src/components/Gastos/RegistrarGastos.jsx:105-108 | `format(…, "yyyy-MM-dd")` of a day with a year up to 9999 is 10 characters, dashes at 4 and 7, and its three digit groups denote the year, month and day |
| Registrar.ValidateMonto | src/components/Gastos/RegistrarGastos.jsx:162-172 | accepted exactly when a number of at least 0.01; empty, too small and not-a-number each give their own message |
| Registrar.Chosen | src/components/Gastos/RegistrarGastos.jsx:67-88 | a select's value after its conditional `setValue`: the first entry with the description gives its id; with no such entry the value is kept |
| Registrar.WithDefaults | src/components/Gastos/RegistrarGastos.jsx:66-89 | the date is always today's text; with no "ARS" currency and no currency already chosen, no currency is set |
| Registrar.DefaultsPickFirstMatch | src/components/Gastos/RegistrarGastos.jsx:65-88 | the four selects end as `Chosen` for "Egreso", "Salidas", "Efectivo" and "ARS" in turn; the date is today's |
| Registrar.DefaultsLeaveOtherFields | src/components/Gastos/RegistrarGastos.jsx:81-88 | every field other than the four selects and the date keeps its value |
| Registrar.RegistrarGastos.constructor | src/components/Gastos/RegistrarGastos.jsx:21-35 | each list holds the "Cargando..." placeholder; `loading` is on; nothing sent |
| Registrar.RegistrarGastos.FetchData | src/components/Gastos/RegistrarGastos.jsx:45-97 | without a user id nothing happens; otherwise `loading` ends after success and failure alike, and success installs the lists and the defaults |
| Registrar.RegistrarGastos.Install | src/components/Gastos/RegistrarGastos.jsx:61-89 | the four lists become the fetched ones and the form values become the defaults computed over them |
| Registrar.RegistrarGastos.OnSubmit | src/components/Gastos/RegistrarGastos.jsx:103-121 | `fecha` is rewritten to its `yyyy-MM-dd` form; `usuario_id` is attached and the record sent only when a user id is set; an invalid date changes nothing |
| Usuarios.EmailOkIffRegexMatches | src/components/Usuarios/RegisterUser.jsx:25 | the run-time check accepts exactly the texts containing a match of `\S+@\S+\.\S+` |
| Usuarios.ErrorsFor | src/components/Usuarios/RegisterUser.jsx:17-29 | a username error iff fewer than 3 UTF-16 code units, a password error iff fewer than 6, an e-mail error iff the pattern fails; each depends only on its own field; no other keys |
| Usuarios.NoErrorsIffAllRulesHold | src/components/Usuarios/RegisterUser.jsx:28-29 | the error map is empty exactly when all three rules hold, lengths counted in UTF-16 code units |
| Usuarios.EmojiPasswordLongEnough | src/components/Usuarios/RegisterUser.jsx:22-24 | three emoji make a long-enough password (six code units), while five ASCII letters do not |
| Usuarios.SubmitNotice | src/components/Usuarios/RegisterUser.jsx:43-60 | success exactly when the body carries a non-empty message; otherwise the generic failure text, never the server's; a null body or a thrown call gives the server-error text |
| Usuarios.RegisterUser.constructor | src/components/Usuarios/RegisterUser.jsx:8-14 | three empty fields, no errors, nothing sent |
| Usuarios.RegisterUser.ValidateInputs | src/components/Usuarios/RegisterUser.jsx:17-30 | the stored error map is rebuilt from the current fields; the result is true iff all three rules hold, lengths in UTF-16 code units |
| Usuarios.RegisterUser.HandleChange | src/components/Usuarios/RegisterUser.jsx:32-37 | only the named field changes |
| Usuarios.RegisterUser.HandleSubmit | src/components/Usuarios/RegisterUser.jsx:39-61 | an invalid form is never sent; a valid form is sent once and the reply decides the notice |
| Login.TraducirMensaje | src/components/Login.jsx:17-29 | the four known messages map to their Spanish texts; any other non-empty message is returned as it is; a missing or empty one gives the generic error; never empty |
| Login.TranslationIdempotent | src/components/Login.jsx:17-29 | translating a translated message changes nothing |
| Login.HandleLogin | src/components/Login.jsx:33-61 | blocked with the "complete all fields" message iff a field is empty; signed in iff the reply carries a non-empty token; otherwise the reply's message translated, or the generic sign-in failure |
| Login.EmptyFieldIgnoresReply | src/components/Login.jsx:36-39 | with an empty field every reply gives the same blocked outcome, so no request matters |
| Login.ThrownMessageIsTranslated | src/components/Login.jsx:54-58 | a message that arrives in an error is shown translated, and unchanged when it is not a known one |
| GastoForm.HookDefaultsSelect | src/hooks/useGastoForm.ts:43-47 | each of the four selects is `find(descripcion)?.id \|\| ""` for its description (first match's id when truthy, `""` when that id is falsy or nothing matches, as `Lookups.DefaultIdOrEmpty` states); the date is today's |
| GastoForm.HookDefaults | src/hooks/useGastoForm.ts:43-47 | the four select keys are always present afterwards and the date is today's text |
| GastoForm.HookLeavesOtherFields | src/hooks/useGastoForm.ts:43-47 | every field other than the four selects and the date keeps its value |
| GastoForm.HookAgreesWithForm | src/hooks/useGastoForm.ts:46 | where the first "ARS" entry has a truthy id, the hook and the new-record form choose the same currency |
| GastoForm.UseGastoForm.constructor | src/hooks/useGastoForm.ts:10-15 | empty lists and `loading` on |
| GastoForm.UseGastoForm.FetchData | src/hooks/useGastoForm.ts:27-54 | without a user id nothing is loaded and `loading` stays; otherwise `loading` ends after success and failure alike, and success installs the lists and the defaults |
| GastoForm.UseGastoForm.Install | src/hooks/useGastoForm.ts:37-47 | the four lists become the fetched ones and the form values become the hook's defaults computed over them |

## Left out

- HTTP calls, `Promise.all` and effect scheduling: each fetch is an input, either the lists or a
  failure.
  - Whether a delete, an update or a registration request throws is an input.
  - The user id read from the session token is an input (`parseJwt` is not part of this model).
  - `localStorage` is not modelled, and neither is the token write after sign-in.
- Toasts, `navigate`, `console` output, XLSX file writing and Chart.js rendering are not modelled.
- The "Cargando..." early render and react-hook-form's `reset()` are not modelled.
- The show-password toggle of the sign-in form is not modelled.
- `new Date(value)` string parsing is not modelled. In the record list a date is either a calendar
  day (`Day`) or a value that does not read as a date. Time of day and time zones are not
  represented.
- In the report a record's `fecha` is always a calendar day. The model cannot hold a report record
  whose date `new Date` cannot read. In the source such a record fails every date criterion, because
  comparisons with `NaN` are false, and its chart label prints `NaN/NaN/NaN`.
- `parseInt` reads optional leading ASCII white space, a sign and decimal digits. The `0x` prefix
  and non-ASCII white space are not modelled.
- `\S`, `toLowerCase` and white space cover ASCII only; Unicode case mapping is not modelled.
- Floating-point arithmetic (`parseFloat` sums, `NaN` amounts) is not modelled. Amounts are whole
  cents and the `monto` input is blank, a number of cents, or not a number.
- `formatMonto` (`Intl.NumberFormat`) is not modelled.
- Today's date for the `fecha` default is an input string.
- The report reads a record's currency and type descriptions from its nested `Divisa` and
  `TiposTransaccione` objects. These are assumed present. A record without them would throw in the
  source.
- Format.FormatDateReadsBack: limited to four-digit years, because `formatDate` does not pad the
  year.
- A message that is not a string (a number, say) in `traducirMensaje` is not modelled.
- A message of that kind in the sign-up reply is not modelled either.
- `Undefined` stands for both `null` and `undefined`. `new Date(null)` reads as 1970-01-01, so the
  source prints `01/01/1970` for a `null` date where `Listar.FormatFecha` prints `NaN/NaN/NaN`.
  A number in a date field is treated the same way: `new Date(n)` reads it as a timestamp (0 prints
  `01/01/1970`), while `Listar.FormatFecha` prints `NaN/NaN/NaN` for every value that is not a `Day`.
- `iniciarSesion` in `src/services/login.services.js:13-17` returns `error.response.data` instead of
  rethrowing. Refusals from the server therefore arrive as `Replied`; `Threw` covers only a request
  that got no response. That request throws a `TypeError` with no `response`, so `Threw(None)` is
  the only thrown reply the service produces, and `Login.ThrownMessageIsTranslated` describes the
  `catch` branch of `Login.jsx` alone.
- `RegisterUser.jsx:5` imports `registrarUsuario` from `login.services.js`, which does not export
  it. The model treats the sign-up call as an input.
- Registrar.RegistrarGastos.OnSubmit: it is reached only through react-hook-form's `handleSubmit`,
  which first runs `Registrar.ValidateFecha`. Text that fails the `dd/MM/yyyy` pattern but that
  date-fns `parse` would still read (such as `1/2/2024`) therefore never arrives there, and the
  model's "an invalid date changes nothing" branch is one the application never takes.
- Registrar.FormatIso: the layout is stated for years up to 9999, the only years a `dd/MM/yyyy`
  text with a four-digit year carries.
