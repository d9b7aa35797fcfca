/**
 * One record of Vite's `manifest.json`: the published file of a chunk, the CSS and other
 * assets it pulls in, and the names of the chunks it imports.
 */
module Chunks {
  import opened Wrappers

  datatype Chunk = Chunk(
    src: Option<string>,           // source path relative to Vite's root
    name: Option<string>,          // logical chunk name, only for entry points
    isEntry: bool,
    isDynamicEntry: bool,
    file: string,                  // published file, relative to the output directory
    css: seq<string>,
    assets: seq<string>,
    imports: seq<string>,          // chunk names imported statically
    dynamicImports: seq<string>)   // chunk names imported dynamically

  /** A decoded JSON value, restricted to the shapes a manifest record holds. */
  datatype Value = Null | Bool(b: bool) | Str(s: string) | List(items: seq<string>)

  /** The loosely-typed key/value record `json_decode` produces for one chunk. */
  type Record = map<string, Value>

  /** PHP's `isset($record[$key])`: the key is present and its value is not `null`. */
  predicate IsSet(record: Record, key: string) {
    key in record && !record[key].Null?
  }

  /** The nine fields a manifest record documents. */
  const Fields: set<string> := {"src", "name", "isEntry", "isDynamicEntry", "file", "css", "assets", "imports", "dynamicImports"}

  /** `file` is a string, and every other field, when set, has the type the record documents. */
  predicate WellShaped(record: Record) {
    && IsSet(record, "file") && record["file"].Str?
    && (IsSet(record, "src") ==> record["src"].Str?)
    && (IsSet(record, "name") ==> record["name"].Str?)
    && (IsSet(record, "isEntry") ==> record["isEntry"].Bool?)
    && (IsSet(record, "isDynamicEntry") ==> record["isDynamicEntry"].Bool?)
    && (IsSet(record, "css") ==> record["css"].List?)
    && (IsSet(record, "assets") ==> record["assets"].List?)
    && (IsSet(record, "imports") ==> record["imports"].List?)
    && (IsSet(record, "dynamicImports") ==> record["dynamicImports"].List?)
  }

  function StringOrNone(record: Record, key: string): Option<string>
    requires IsSet(record, key) ==> record[key].Str?
  {
    if IsSet(record, key) then Some(record[key].s) else None
  }

  function FlagOrFalse(record: Record, key: string): bool
    requires IsSet(record, key) ==> record[key].Bool?
  {
    if IsSet(record, key) then record[key].b else false
  }

  function ListOrEmpty(record: Record, key: string): seq<string>
    requires IsSet(record, key) ==> record[key].List?
  {
    if IsSet(record, key) then record[key].items else []
  }

  /** `Chunk::create`: `file` is copied as is, every other field falls back to its empty value. */
  function Create(record: Record): (c: Chunk)
    requires WellShaped(record)
    ensures c.file == record["file"].s
    ensures c.src.Some? <==> IsSet(record, "src")
    ensures c.src.Some? ==> c.src.value == record["src"].s
    ensures c.name.Some? <==> IsSet(record, "name")
    ensures c.name.Some? ==> c.name.value == record["name"].s
    ensures !IsSet(record, "isEntry") ==> !c.isEntry
    ensures IsSet(record, "isEntry") ==> c.isEntry == record["isEntry"].b
    ensures !IsSet(record, "isDynamicEntry") ==> !c.isDynamicEntry
    ensures IsSet(record, "isDynamicEntry") ==> c.isDynamicEntry == record["isDynamicEntry"].b
    ensures !IsSet(record, "css") ==> c.css == []
    ensures IsSet(record, "css") ==> c.css == record["css"].items
    ensures !IsSet(record, "assets") ==> c.assets == []
    ensures IsSet(record, "assets") ==> c.assets == record["assets"].items
    ensures !IsSet(record, "imports") ==> c.imports == []
    ensures IsSet(record, "imports") ==> c.imports == record["imports"].items
    ensures !IsSet(record, "dynamicImports") ==> c.dynamicImports == []
    ensures IsSet(record, "dynamicImports") ==> c.dynamicImports == record["dynamicImports"].items
  {
    Chunk(
      StringOrNone(record, "src"),
      StringOrNone(record, "name"),
      FlagOrFalse(record, "isEntry"),
      FlagOrFalse(record, "isDynamicEntry"),
      record["file"].s,
      ListOrEmpty(record, "css"),
      ListOrEmpty(record, "assets"),
      ListOrEmpty(record, "imports"),
      ListOrEmpty(record, "dynamicImports"))
  }

  function OptionValue(o: Option<string>): Value {
    match o
    case Some(s) => Str(s)
    case None => Null
  }

  /** The manifest record a chunk is written as, every key present. */
  function Encode(c: Chunk): Record {
    map[
      "src" := OptionValue(c.src),
      "name" := OptionValue(c.name),
      "isEntry" := Bool(c.isEntry),
      "isDynamicEntry" := Bool(c.isDynamicEntry),
      "file" := Str(c.file),
      "css" := List(c.css),
      "assets" := List(c.assets),
      "imports" := List(c.imports),
      "dynamicImports" := List(c.dynamicImports)]
  }

  /** Decoding the record of a chunk gives that chunk back: no field is lost or altered. */
  lemma CreateEncode(c: Chunk)
    ensures WellShaped(Encode(c))
    ensures Create(Encode(c)) == c
  {
  }

  /** A record holding only `file` yields a chunk with every default in place. */
  lemma CreateDefaults(file: string)
    ensures WellShaped(map["file" := Str(file)])
    ensures Create(map["file" := Str(file)]) == Chunk(None, None, false, false, file, [], [], [], [])
  {
  }

  /** Keys other than the nine documented ones do not affect the chunk, whatever their value. */
  lemma CreateIgnoresOtherKeys(record: Record, key: string, v: Value)
    requires WellShaped(record)
    requires key !in Fields
    ensures WellShaped(record[key := v])
    ensures Create(record[key := v]) == Create(record)
  {
    CreateDependsOnSetFields(record, record[key := v]);
  }

  /** The two records agree on whether `key` is set and, where it is, on its value. */
  predicate Agree(r1: Record, r2: Record, key: string) {
    && (IsSet(r1, key) <==> IsSet(r2, key))
    && (IsSet(r1, key) ==> r1[key] == r2[key])
  }

  lemma StringFieldAgrees(r1: Record, r2: Record, key: string)
    requires Agree(r1, r2, key) && (IsSet(r1, key) ==> r1[key].Str?)
    ensures IsSet(r2, key) ==> r2[key].Str?
    ensures StringOrNone(r1, key) == StringOrNone(r2, key)
  {
  }

  lemma FlagFieldAgrees(r1: Record, r2: Record, key: string)
    requires Agree(r1, r2, key) && (IsSet(r1, key) ==> r1[key].Bool?)
    ensures IsSet(r2, key) ==> r2[key].Bool?
    ensures FlagOrFalse(r1, key) == FlagOrFalse(r2, key)
  {
  }

  lemma ListFieldAgrees(r1: Record, r2: Record, key: string)
    requires Agree(r1, r2, key) && (IsSet(r1, key) ==> r1[key].List?)
    ensures IsSet(r2, key) ==> r2[key].List?
    ensures ListOrEmpty(r1, key) == ListOrEmpty(r2, key)
  {
  }

  /** Two records that agree on the documented fields give the same chunk. */
  lemma CreateDependsOnSetFields(r1: Record, r2: Record)
    requires WellShaped(r1)
    requires forall k | k in Fields :: Agree(r1, r2, k)
    ensures WellShaped(r2)
    ensures Create(r1) == Create(r2)
  {
    assert Agree(r1, r2, "file");
    assert Agree(r1, r2, "src") && Agree(r1, r2, "name");
    StringFieldAgrees(r1, r2, "src");
    StringFieldAgrees(r1, r2, "name");
    assert Agree(r1, r2, "isEntry") && Agree(r1, r2, "isDynamicEntry");
    FlagFieldAgrees(r1, r2, "isEntry");
    FlagFieldAgrees(r1, r2, "isDynamicEntry");
    assert Agree(r1, r2, "css") && Agree(r1, r2, "assets");
    ListFieldAgrees(r1, r2, "css");
    ListFieldAgrees(r1, r2, "assets");
    assert Agree(r1, r2, "imports") && Agree(r1, r2, "dynamicImports");
    ListFieldAgrees(r1, r2, "imports");
    ListFieldAgrees(r1, r2, "dynamicImports");
  }

  /** A key set to `null` counts as absent. */
  lemma CreateNullIsAbsent(record: Record, key: string)
    requires WellShaped(record)
    requires key != "file"
    ensures WellShaped(record[key := Null]) && WellShaped(record - {key})
    ensures Create(record[key := Null]) == Create(record - {key})
  {
    var withNull, without := record[key := Null], record - {key};
    forall k | k in Fields ensures Agree(withNull, without, k) {
    }
    assert IsSet(withNull, "file");
    CreateDependsOnSetFields(withNull, without);
  }
}
