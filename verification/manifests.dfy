/**
 * The manifest of published files: the chunk map, the preload-type registry and the
 * public base path, with the development-mode switch that bypasses the chunk map.
 */
module Manifests {
  import opened Wrappers
  import opened Chunks
  import opened PreloadTypes
  import opened PhpStrings
  import opened Resolution
  import opened Rendering

  datatype Manifest = Manifest(dev: bool, chunks: ChunkMap, preloadTypes: Table, basePath: string)

  /** Path of Vite's development client, served under the base path. */
  const ViteClient: string := "@vite/client"

  /**
   * The constructor once the manifest file has been read and decoded: development mode
   * keeps no chunks, production mode builds one chunk per decoded record.
   */
  function Load(dev: bool, decoded: map<string, Record>, basePath: string): (m: Manifest)
    requires dev || forall k | k in decoded :: WellShaped(decoded[k])
    ensures m.dev == dev && m.basePath == basePath && m.preloadTypes == map[]
    ensures dev ==> m.chunks == map[]
    ensures !dev ==> m.chunks.Keys == decoded.Keys
    ensures !dev ==> forall k | k in decoded :: m.chunks[k] == Create(decoded[k])
  {
    var chunks := if dev then map[] else map k | k in decoded :: Create(decoded[k]);
    Manifest(dev, chunks, map[], basePath)
  }

  /** A production manifest holds, under each key, the chunk its record creates. */
  lemma LoadCreates(decoded: map<string, Record>, chunks: ChunkMap, basePath: string)
    requires forall k | k in decoded :: WellShaped(decoded[k])
    requires decoded.Keys == chunks.Keys
    requires forall k | k in decoded :: Create(decoded[k]) == chunks[k]
    ensures Load(false, decoded, basePath).chunks == chunks
  {
  }

  /** A production manifest decoded from the records of some chunks holds exactly those chunks. */
  lemma LoadEncoded(chunks: ChunkMap, basePath: string)
    ensures forall k | k in chunks :: WellShaped(Encode(chunks[k]))
    ensures Load(false, map k | k in chunks :: Encode(chunks[k]), basePath).chunks == chunks
  {
    forall k | k in chunks
      ensures WellShaped(Encode(chunks[k])) && Create(Encode(chunks[k])) == chunks[k]
    {
      CreateEncode(chunks[k]);
    }
  }

  /** `preload($ext, $mimeType, $preloadAs)`. */
  function Preload(m: Manifest, ext: string, mimeType: string, preloadAs: string): (r: Manifest)
    ensures r.dev == m.dev && r.chunks == m.chunks && r.basePath == m.basePath
    ensures r.preloadTypes.Keys == m.preloadTypes.Keys + {ext}
    ensures r.preloadTypes[ext] == PreloadType(mimeType, preloadAs)
    ensures forall k | k in m.preloadTypes && k != ext :: r.preloadTypes[k] == m.preloadTypes[k]
  {
    m.(preloadTypes := Register(m.preloadTypes, ext, mimeType, preloadAs))
  }

  /** `preloadImages()`. */
  function PreloadImages(m: Manifest): (r: Manifest)
    ensures r.dev == m.dev && r.chunks == m.chunks && r.basePath == m.basePath
    ensures r.preloadTypes.Keys == m.preloadTypes.Keys + ImageTypes.Keys
    ensures forall k | k in ImageTypes :: r.preloadTypes[k] == ImageTypes[k]
    ensures forall k | k in m.preloadTypes && k !in ImageTypes :: r.preloadTypes[k] == m.preloadTypes[k]
  {
    m.(preloadTypes := RegisterImages(m.preloadTypes))
  }

  /** `preloadFonts()`. */
  function PreloadFonts(m: Manifest): (r: Manifest)
    ensures r.dev == m.dev && r.chunks == m.chunks && r.basePath == m.basePath
    ensures r.preloadTypes.Keys == m.preloadTypes.Keys + FontTypes.Keys
    ensures forall k | k in FontTypes :: r.preloadTypes[k] == FontTypes[k]
    ensures forall k | k in m.preloadTypes && k !in FontTypes :: r.preloadTypes[k] == m.preloadTypes[k]
  {
    m.(preloadTypes := RegisterFonts(m.preloadTypes))
  }

  function ChunksOf(chunks: ChunkMap, names: seq<string>): seq<Chunk>
    requires forall n | n in names :: n in chunks
  {
    seq(|names|, i requires 0 <= i < |names| => chunks[names[i]])
  }

  /** The development scripts: Vite's client, then each requested name as given. */
  function DevScripts(basePath: string, entries: seq<string>): (r: seq<string>)
    ensures |r| == |entries| + 1
    ensures r[0] == ScriptTag(basePath + ViteClient)
    ensures forall i | 0 <= i < |entries| :: r[i + 1] == ScriptTag(basePath + entries[i])
  {
    [ScriptTag(Url(basePath, ViteClient))] + seq(|entries|, i requires 0 <= i < |entries| => ScriptTag(Url(basePath, entries[i])))
  }

  /**
   * `createTags(...$entries)`. In development mode nothing is looked up and nothing fails;
   * in production mode the call fails, naming it, on the first requested name that is not
   * an entry point, and otherwise renders the resolved chunks.
   */
  function CreateTags(m: Manifest, entries: seq<string>): (r: Result<Tags, Error>)
    requires m.dev || ImportsClosed(m.chunks)
    ensures m.dev ==> r.Ok? && r.value.preload == "" && r.value.css == ""
    ensures !m.dev ==> (r.Ok? <==> forall i | 0 <= i < |entries| :: IsEntryPoint(m.chunks, entries[i]))
    ensures !m.dev && r.Err? ==> exists i :: FirstInvalid(m.chunks, entries, i) && r.error == ErrorFor(m.chunks, entries[i])
  {
    if m.dev then
      Ok(Tags("", "", Implode('\n', DevScripts(m.basePath, entries))))
    else
      match Resolve(m.chunks, entries)
      case Err(e) => Err(e)
      case Ok(names) =>
        assert forall n | n in names :: n in m.chunks by {
          forall n | n in names ensures n in m.chunks {
            var i :| 0 <= i < |entries| && Reachable(m.chunks, entries[i], n);
            var path :| IsImportPath(m.chunks, path) && path[0] == entries[i] && path[|path| - 1] == n;
          }
        }
        var cs := ChunksOf(m.chunks, names);
        Ok(Tags(
          CreatePreloadTags(m.basePath, m.preloadTypes, cs),
          CreateStyleTags(m.basePath, cs),
          CreateScriptTags(m.basePath, cs)))
  }

  /**
   * `getURL($entry)`: in development mode the base path and the name; in production mode
   * the base path and the published file of any chunk, entry point or not.
   */
  function GetURL(m: Manifest, name: string): (r: Result<string, Error>)
    ensures m.dev ==> r == Ok(Url(m.basePath, name))
    ensures !m.dev ==> (r.Ok? <==> name in m.chunks)
    ensures !m.dev && r.Ok? ==> r.value == Url(m.basePath, m.chunks[name].file)
    ensures !m.dev && r.Err? ==> r.error == EntryNotFound(name)
  {
    if m.dev then Ok(Url(m.basePath, name))
    else if name !in m.chunks then Err(EntryNotFound(name))
    else Ok(Url(m.basePath, m.chunks[name].file))
  }

  // ---------------------------------------------------------------------------
  // Properties across operations.

  /**
   * In development mode the script group splits into Vite's client followed by one script
   * per requested name, in the order requested, whether or not the names exist.
   */
  lemma DevModeScripts(m: Manifest, entries: seq<string>)
    requires m.dev
    requires '\n' !in m.basePath
    requires forall i | 0 <= i < |entries| :: '\n' !in entries[i]
    ensures CreateTags(m, entries).Ok?
    ensures Explode('\n', CreateTags(m, entries).value.js) == DevScripts(m.basePath, entries)
    ensures |Explode('\n', CreateTags(m, entries).value.js)| == |entries| + 1
  {
    var scripts := DevScripts(m.basePath, entries);
    forall k | 0 <= k < |scripts|
      ensures '\n' !in scripts[k]
    {
      if k == 0 {
        NoNewlineConcat(m.basePath, ViteClient);
      } else {
        NoNewlineConcat(m.basePath, entries[k - 1]);
      }
    }
    ExplodeImplode('\n', scripts);
  }

  /** `getURL` resolves a chunk that is not an entry point, while `createTags` rejects it. */
  lemma GetURLAcceptsNonEntry(m: Manifest, name: string)
    requires !m.dev && ImportsClosed(m.chunks)
    requires name in m.chunks && !m.chunks[name].isEntry
    ensures GetURL(m, name) == Ok(Url(m.basePath, m.chunks[name].file))
    ensures CreateTags(m, [name]) == Err(NotAnEntryPoint(name))
  {
    assert FirstInvalid(m.chunks, [name], 0);
  }

  /** Both operations report a name missing from the manifest. */
  lemma MissingNameFails(m: Manifest, name: string)
    requires !m.dev && ImportsClosed(m.chunks)
    requires name !in m.chunks
    ensures GetURL(m, name) == Err(EntryNotFound(name))
    ensures CreateTags(m, [name]) == Err(EntryNotFound(name))
  {
    assert FirstInvalid(m.chunks, [name], 0);
  }

  /** A single requested entry comes first in its resolution. */
  lemma ResolveStartsWithEntry(chunks: ChunkMap, entry: string)
    requires ImportsClosed(chunks) && IsEntryPoint(chunks, entry)
    ensures Resolve(chunks, [entry]).Ok?
    ensures Resolve(chunks, [entry]).value != [] && Resolve(chunks, [entry]).value[0] == entry
  {
    ResolveOrder(chunks, [entry], 0);
    assert [entry][..0] == [];
    var r := Resolve(chunks, [entry]).value;
    InsertAllExtends([entry], chunks[entry].imports);
    PrefixTransitive([entry], InsertAll([entry], chunks[entry].imports), r);
  }

  /** The first script tag of a single entry loads the URL `getURL` gives for that entry. */
  lemma FirstScriptIsEntryURL(m: Manifest, entry: string)
    requires !m.dev && ImportsClosed(m.chunks) && IsEntryPoint(m.chunks, entry)
    ensures CreateTags(m, [entry]).Ok? && GetURL(m, entry).Ok?
    ensures IsPrefix(ScriptTag(GetURL(m, entry).value), CreateTags(m, [entry]).value.js)
  {
    ResolveStartsWithEntry(m.chunks, entry);
    var names := Resolve(m.chunks, [entry]).value;
    assert forall n | n in names :: n in m.chunks by {
      forall n | n in names ensures n in m.chunks {
        var path :| IsImportPath(m.chunks, path) && path[0] == [entry][0] && path[|path| - 1] == n;
      }
    }
    var cs := ChunksOf(m.chunks, names);
    assert cs == [cs[0]] + cs[1..];
    assert cs[0] == m.chunks[entry];
    var scripts := ScriptList(m.basePath, cs);
    assert scripts[0] == ScriptTag(Url(m.basePath, m.chunks[entry].file));
  }
}
