/**
  The per-user lookup tables (payment methods, transaction types, currencies,
  categories) and the two ways the screens search them: by id, to show a
  record's description, and by description, to pick a form's default option.
*/
module Lookups {
  import opened Js

  /** One entry of a lookup table: its id and its description. */
  datatype LookupEntry = LookupEntry(id: Value, descripcion: string)

  /** The outcome of loading the four lookup tables together (`Promise.all`):
      all four lists, or a failure that discards them all. */
  datatype LookupLoad =
    | Loaded(categorias: seq<LookupEntry>, mediosDePago: seq<LookupEntry>,
             divisas: seq<LookupEntry>, tipoTransacciones: seq<LookupEntry>)
    | LoadFailed

  /** Where `entries.find(e => e.id === id)` stops: the first entry with that id, or |entries|. */
  function IndexOfId(entries: seq<LookupEntry>, id: Value): (k: nat)
    ensures k <= |entries|
    ensures forall j :: 0 <= j < k ==> entries[j].id != id
    ensures k < |entries| ==> entries[k].id == id
  {
    if entries == [] then 0
    else if entries[0].id == id then 0
    else 1 + IndexOfId(entries[1..], id)
  }

  /** Where `entries.find(e => e.descripcion === d)` stops. */
  function IndexOfDescripcion(entries: seq<LookupEntry>, d: string): (k: nat)
    ensures k <= |entries|
    ensures forall j :: 0 <= j < k ==> entries[j].descripcion != d
    ensures k < |entries| ==> entries[k].descripcion == d
  {
    if entries == [] then 0
    else if entries[0].descripcion == d then 0
    else 1 + IndexOfDescripcion(entries[1..], d)
  }

  /** `k` is the first entry whose id is `id`. */
  predicate FirstWithId(entries: seq<LookupEntry>, id: Value, k: int) {
    0 <= k < |entries| && entries[k].id == id && forall j :: 0 <= j < k ==> entries[j].id != id
  }

  /** `k` is the first entry described `d`. */
  predicate FirstWithDescripcion(entries: seq<LookupEntry>, d: string, k: int) {
    0 <= k < |entries| && entries[k].descripcion == d && forall j :: 0 <= j < k ==> entries[j].descripcion != d
  }

  /** `entries.find(e => e.id === id)?.descripcion || fallback`: the description of the
      first entry with an equal id, or `fallback` when there is none or it is empty. */
  function DescripcionOr(entries: seq<LookupEntry>, id: Value, fallback: string): (r: string)
    ensures (forall j :: 0 <= j < |entries| ==> entries[j].id != id) ==> r == fallback
    ensures forall k :: FirstWithId(entries, id, k) ==>
              r == if entries[k].descripcion != "" then entries[k].descripcion else fallback
  {
    var k := IndexOfId(entries, id);
    if k < |entries| && entries[k].descripcion != "" then entries[k].descripcion else fallback
  }

  /** `entries.find(e => e.descripcion === d)?.id || ""`: the id of the first entry
      described `d`, or `""` when there is none or that id is falsy. */
  function DefaultIdOrEmpty(entries: seq<LookupEntry>, d: string): (r: Value)
    ensures (forall j :: 0 <= j < |entries| ==> entries[j].descripcion != d) ==> r == Text("")
    ensures forall k :: FirstWithDescripcion(entries, d, k) ==>
              r == if IsFalsy(entries[k].id) then Text("") else entries[k].id
    ensures !IsFalsy(r) || r == Text("")
  {
    var k := IndexOfDescripcion(entries, d);
    if k < |entries| && !IsFalsy(entries[k].id) then entries[k].id else Text("")
  }

  /** `const e = entries.find(e => e.descripcion === d); if (e) setValue(key, e.id)`:
      the form values with `key` set to the first matching entry's id, untouched when none matches. */
  function SetDefault(values: map<string, Value>, key: string, entries: seq<LookupEntry>, d: string)
    : (r: map<string, Value>)
    ensures (forall j :: 0 <= j < |entries| ==> entries[j].descripcion != d) ==> r == values
    ensures forall k :: FirstWithDescripcion(entries, d, k) ==> key in r && r[key] == entries[k].id
    ensures forall other :: other != key ==> Get(r, other) == Get(values, other)
  {
    var k := IndexOfDescripcion(entries, d);
    if k < |entries| then values[key := entries[k].id] else values
  }
}
