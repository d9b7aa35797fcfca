/**
 * The behaviour the test suite asserts, on a manifest shaped like its fixture: an entry
 * `main.js` with a stylesheet, a PNG asset, a static import of a shared chunk and a
 * dynamic import of `views/foo.js`; a second entry `consent-banner.js`.
 */
module Scenarios {
  import opened Wrappers
  import opened Chunks
  import opened PreloadTypes
  import opened PhpStrings
  import opened Resolution
  import opened Rendering
  import opened Manifests

  const Shared: string := "_shared.83069a53.js"

  function MainRecord(): Record {
    map[
      "src" := Str("main.js"),
      "isEntry" := Bool(true),
      "file" := Str("assets/main.4889e940.js"),
      "css" := List(["assets/main.b82dbe22.css"]),
      "assets" := List(["assets/asset.0ab0f9cd.png"]),
      "imports" := List([Shared]),
      "dynamicImports" := List(["views/foo.js"])]
  }

  function FooRecord(): Record {
    map[
      "src" := Str("views/foo.js"),
      "isDynamicEntry" := Bool(true),
      "file" := Str("assets/foo.869aea0d.js"),
      "imports" := List([Shared])]
  }

  function SharedRecord(): Record {
    map[
      "file" := Str("assets/shared.83069a53.js"),
      "css" := List(["assets/shared.a834bfc3.css"])]
  }

  function BannerRecord(): Record {
    map[
      "src" := Str("consent-banner.js"),
      "isEntry" := Bool(true),
      "file" := Str("assets/consent-banner.0e3b3b7b.js"),
      "css" := List(["assets/consent-banner.8ba40300.css"]),
      "imports" := List([Shared])]
  }

  /** The decoded manifest. */
  function Fixture(): map<string, Record> {
    map["main.js" := MainRecord(), "views/foo.js" := FooRecord(), Shared := SharedRecord(), "consent-banner.js" := BannerRecord()]
  }

  function MainChunk(): Chunk {
    Chunk(Some("main.js"), None, true, false, "assets/main.4889e940.js",
      ["assets/main.b82dbe22.css"], ["assets/asset.0ab0f9cd.png"], [Shared], ["views/foo.js"])
  }

  function FooChunk(): Chunk {
    Chunk(Some("views/foo.js"), None, false, true, "assets/foo.869aea0d.js", [], [], [Shared], [])
  }

  function SharedChunk(): Chunk {
    Chunk(None, None, false, false, "assets/shared.83069a53.js", ["assets/shared.a834bfc3.css"], [], [], [])
  }

  function BannerChunk(): Chunk {
    Chunk(Some("consent-banner.js"), None, true, false, "assets/consent-banner.0e3b3b7b.js",
      ["assets/consent-banner.8ba40300.css"], [], [Shared], [])
  }

  function FixtureChunks(): ChunkMap {
    map["main.js" := MainChunk(), "views/foo.js" := FooChunk(), Shared := SharedChunk(), "consent-banner.js" := BannerChunk()]
  }

  lemma MainRecordCreates()
    ensures WellShaped(Fixture()["main.js"]) && Create(Fixture()["main.js"]) == FixtureChunks()["main.js"]
  {
    assert Fixture()["main.js"] == MainRecord() && FixtureChunks()["main.js"] == MainChunk();
  }

  lemma FooRecordCreates()
    ensures WellShaped(Fixture()["views/foo.js"]) && Create(Fixture()["views/foo.js"]) == FixtureChunks()["views/foo.js"]
  {
    assert Fixture()["views/foo.js"] == FooRecord() && FixtureChunks()["views/foo.js"] == FooChunk();
  }

  lemma SharedRecordCreates()
    ensures WellShaped(Fixture()[Shared]) && Create(Fixture()[Shared]) == FixtureChunks()[Shared]
  {
    assert Fixture()[Shared] == SharedRecord() && FixtureChunks()[Shared] == SharedChunk();
  }

  lemma BannerRecordCreates()
    ensures WellShaped(Fixture()["consent-banner.js"]) && Create(Fixture()["consent-banner.js"]) == FixtureChunks()["consent-banner.js"]
  {
    assert Fixture()["consent-banner.js"] == BannerRecord() && FixtureChunks()["consent-banner.js"] == BannerChunk();
  }

  lemma FixtureImportsClosed()
    ensures ImportsClosed(FixtureChunks())
  {
    var chunks := FixtureChunks();
    assert chunks.Keys == {"main.js", "views/foo.js", Shared, "consent-banner.js"};
    forall n | n in chunks
      ensures forall m | m in chunks[n].imports :: m == Shared
    {
    }
  }

  lemma FixtureKeys()
    ensures Fixture().Keys == FixtureChunks().Keys == {"main.js", "views/foo.js", Shared, "consent-banner.js"}
  {
  }

  /** Each record of the fixture creates the chunk of the same name. */
  lemma FixtureCreates()
    ensures Fixture().Keys == FixtureChunks().Keys
    ensures forall k | k in Fixture() :: WellShaped(Fixture()[k]) && Create(Fixture()[k]) == FixtureChunks()[k]
  {
    FixtureKeys();
    MainRecordCreates();
    FooRecordCreates();
    SharedRecordCreates();
    BannerRecordCreates();
  }

  lemma FixtureLoads()
    ensures forall k | k in Fixture() :: WellShaped(Fixture()[k])
    ensures Load(false, Fixture(), "/dist/").chunks == FixtureChunks()
  {
    FixtureCreates();
    LoadCreates(Fixture(), FixtureChunks(), "/dist/");
  }

  /** The production manifest as constructed, before any preload type is registered. */
  function ProdManifest(): Manifest
  {
    Manifest(false, FixtureChunks(), map[], "/dist/")
  }

  /** The constructor builds exactly the fixture's chunks. */
  lemma ProdManifestLoads()
    ensures forall k | k in Fixture() :: WellShaped(Fixture()[k])
    ensures Load(false, Fixture(), "/dist/") == ProdManifest()
  {
    FixtureLoads();
  }

  /** After `preloadImages()`, PNG assets are preloaded as images. */
  lemma PngIsImage()
    ensures "png" in PreloadImages(ProdManifest()).preloadTypes
    ensures PreloadImages(ProdManifest()).preloadTypes["png"] == Image("image/png")
  {
    assert "png" in ImageTypes && ImageTypes["png"] == Image("image/png");
  }

  /** Development mode: Vite's client and the requested script, nothing else, whatever the manifest holds. */
  lemma DevModeTags(decoded: map<string, Record>, basePath: string)
    ensures CreateTags(Load(true, decoded, basePath), ["main.js"]) == Ok(Tags("", "", Implode('\n', [
      ScriptTag(Url(basePath, "@vite/client")),
      ScriptTag(Url(basePath, "main.js"))])))
  {
    assert DevScripts(basePath, ["main.js"]) == [ScriptTag(Url(basePath, ViteClient)), ScriptTag(Url(basePath, "main.js"))];
  }

  /** `main.js` resolves to itself and its shared chunk; the dynamically imported view is left out. */
  lemma ProdModeResolution()
    ensures ImportsClosed(FixtureChunks())
    ensures Resolve(FixtureChunks(), ["main.js"]) == Ok(["main.js", Shared])
  {
    FixtureImportsClosed();
    var chunks := FixtureChunks();
    assert chunks["main.js"] == MainChunk() && chunks[Shared] == SharedChunk();
    assert Shared !in ["main.js"];
    assert Walk(chunks, ["main.js"], [Shared]) == Walk(chunks, ["main.js", Shared], []);
  }

  /** The asset's extension is what follows its last dot. */
  lemma PngExtension()
    ensures Extension("assets/asset.0ab0f9cd.png") == Some("png")
  {
    ExtensionOfDottedName("assets/asset.0ab0f9cd", "png");
    assert "assets/asset.0ab0f9cd" + "." + "png" == "assets/asset.0ab0f9cd.png";
  }

  /** Both chunks on the path of `main.js` publish JavaScript modules. */
  lemma FixtureModules()
    ensures EndsWith(MainChunk().file, ".js") && EndsWith(SharedChunk().file, ".js")
  {
    var main := "assets/main.4889e940.js";
    var shared := "assets/shared.83069a53.js";
    assert main[|main| - 3..] == ".js";
    assert shared[|shared| - 3..] == ".js";
  }

  /** `main.js` preloads its own module, then its PNG asset. */
  lemma MainPreloads(basePath: string, types: Table)
    requires "png" in types && types["png"] == Image("image/png")
    ensures ChunkPreloads(basePath, types, MainChunk()) == [
      ModulePreloadTag(Url(basePath, "assets/main.4889e940.js")),
      AssetPreloadTag(Image("image/png"), Url(basePath, "assets/asset.0ab0f9cd.png"))]
  {
    PngExtension();
    FixtureModules();
    var assets := MainChunk().assets;
    assert AssetPreloads(basePath, types, assets) == AssetPreload(basePath, types, assets[0]);
  }

  /** The shared chunk preloads its module only. */
  lemma SharedPreloads(basePath: string, types: Table)
    ensures ChunkPreloads(basePath, types, SharedChunk()) == [ModulePreloadTag(Url(basePath, "assets/shared.83069a53.js"))]
  {
    FixtureModules();
  }

  /** The preload list of `main.js` and its shared chunk, in that order. */
  lemma MainThenSharedPreloads(basePath: string, types: Table)
    requires "png" in types && types["png"] == Image("image/png")
    ensures PreloadList(basePath, types, [MainChunk(), SharedChunk()]) == [
      ModulePreloadTag(Url(basePath, "assets/main.4889e940.js")),
      AssetPreloadTag(Image("image/png"), Url(basePath, "assets/asset.0ab0f9cd.png")),
      ModulePreloadTag(Url(basePath, "assets/shared.83069a53.js"))]
  {
    assert [MainChunk(), SharedChunk()][1..] == [SharedChunk()];
    MainPreloads(basePath, types);
    SharedPreloads(basePath, types);
  }

  /** The stylesheets of both chunks, and the script of the entry alone. */
  lemma MainThenSharedStylesScripts(basePath: string)
    ensures StyleList(basePath, [MainChunk(), SharedChunk()]) == [
      StylesheetTag(Url(basePath, "assets/main.b82dbe22.css")),
      StylesheetTag(Url(basePath, "assets/shared.a834bfc3.css"))]
    ensures ScriptList(basePath, [MainChunk(), SharedChunk()]) == [ScriptTag(Url(basePath, "assets/main.4889e940.js"))]
  {
    assert [MainChunk(), SharedChunk()][1..] == [SharedChunk()];
  }

  /**
   * Production mode: module and image preloads in chunk order, both stylesheets, one
   * script; the dynamically imported view contributes nothing.
   */
  lemma ProdModeTags(basePath: string, types: Table)
    requires "png" in types && types["png"] == Image("image/png")
    ensures ImportsClosed(FixtureChunks())
    ensures CreateTags(Manifest(false, FixtureChunks(), types, basePath), ["main.js"]) == Ok(Tags(
      Implode('\n', [
        ModulePreloadTag(Url(basePath, "assets/main.4889e940.js")),
        AssetPreloadTag(Image("image/png"), Url(basePath, "assets/asset.0ab0f9cd.png")),
        ModulePreloadTag(Url(basePath, "assets/shared.83069a53.js"))]),
      Implode('\n', [
        StylesheetTag(Url(basePath, "assets/main.b82dbe22.css")),
        StylesheetTag(Url(basePath, "assets/shared.a834bfc3.css"))]),
      Implode('\n', [ScriptTag(Url(basePath, "assets/main.4889e940.js"))])))
  {
    ProdModeResolution();
    var chunks := FixtureChunks();
    assert ChunksOf(chunks, ["main.js", Shared]) == [MainChunk(), SharedChunk()];
    MainThenSharedPreloads(basePath, types);
    MainThenSharedStylesScripts(basePath);
  }

  /** A second entry point that shares the already resolved chunk adds only its own chunk. */
  lemma MultipleEntryResolution()
    ensures ImportsClosed(FixtureChunks())
    ensures Resolve(FixtureChunks(), ["main.js", "consent-banner.js"]) == Ok(["main.js", Shared, "consent-banner.js"])
  {
    FixtureImportsClosed();
    var chunks := FixtureChunks();
    var banner := "consent-banner.js";
    assert chunks["main.js"] == MainChunk() && chunks[Shared] == SharedChunk() && chunks[banner] == BannerChunk();
    var first := ["main.js", Shared];
    assert Shared !in ["main.js"];
    assert Walk(chunks, ["main.js"], [Shared]) == first;
    var both := ["main.js", Shared, banner];
    assert both == first + [banner];
    assert banner !in first;
    assert Insert(first, banner) == both;
    assert Shared in both;
    assert Walk(chunks, both, [Shared]) == both;
    var entries := ["main.js", banner];
    assert entries[1..] == [banner];
    assert ResolveFrom(chunks, first, [banner]) == Ok(both);
    assert ResolveFrom(chunks, [], entries) == ResolveFrom(chunks, first, [banner]);
    assert Resolve(chunks, entries) == ResolveFrom(chunks, [], entries);
  }

  /** The banner chunk alone: its module preload, its stylesheet and its script. */
  lemma BannerTags(basePath: string, types: Table)
    ensures PreloadList(basePath, types, [BannerChunk()]) == [ModulePreloadTag(Url(basePath, "assets/consent-banner.0e3b3b7b.js"))]
    ensures StyleList(basePath, [BannerChunk()]) == [StylesheetTag(Url(basePath, "assets/consent-banner.8ba40300.css"))]
    ensures ScriptList(basePath, [BannerChunk()]) == [ScriptTag(Url(basePath, "assets/consent-banner.0e3b3b7b.js"))]
  {
    var banner := "assets/consent-banner.0e3b3b7b.js";
    assert banner[|banner| - 3..] == ".js";
    assert [BannerChunk()][1..] == [];
  }

  /** The preload list of the three chunks puts the banner's module after those of `main.js`. */
  lemma ThreeChunkPreloads(basePath: string, types: Table)
    requires "png" in types && types["png"] == Image("image/png")
    ensures PreloadList(basePath, types, [MainChunk(), SharedChunk(), BannerChunk()]) == [
      ModulePreloadTag(Url(basePath, "assets/main.4889e940.js")),
      AssetPreloadTag(Image("image/png"), Url(basePath, "assets/asset.0ab0f9cd.png")),
      ModulePreloadTag(Url(basePath, "assets/shared.83069a53.js")),
      ModulePreloadTag(Url(basePath, "assets/consent-banner.0e3b3b7b.js"))]
  {
    var first := [MainChunk(), SharedChunk()];
    assert [MainChunk(), SharedChunk(), BannerChunk()] == first + [BannerChunk()];
    MainThenSharedPreloads(basePath, types);
    BannerTags(basePath, types);
    PreloadListAppend(basePath, types, first, [BannerChunk()]);
  }

  lemma ThreeChunkStyles(basePath: string)
    ensures StyleList(basePath, [MainChunk(), SharedChunk(), BannerChunk()]) == [
      StylesheetTag(Url(basePath, "assets/main.b82dbe22.css")),
      StylesheetTag(Url(basePath, "assets/shared.a834bfc3.css")),
      StylesheetTag(Url(basePath, "assets/consent-banner.8ba40300.css"))]
  {
    var first := [MainChunk(), SharedChunk()];
    assert [MainChunk(), SharedChunk(), BannerChunk()] == first + [BannerChunk()];
    MainThenSharedStylesScripts(basePath);
    BannerTags(basePath, map[]);
    StyleListAppend(basePath, first, [BannerChunk()]);
  }

  lemma ThreeChunkScripts(basePath: string)
    ensures ScriptList(basePath, [MainChunk(), SharedChunk(), BannerChunk()]) == [
      ScriptTag(Url(basePath, "assets/main.4889e940.js")),
      ScriptTag(Url(basePath, "assets/consent-banner.0e3b3b7b.js"))]
  {
    var first := [MainChunk(), SharedChunk()];
    assert [MainChunk(), SharedChunk(), BannerChunk()] == first + [BannerChunk()];
    MainThenSharedStylesScripts(basePath);
    BannerTags(basePath, map[]);
    ScriptListAppend(basePath, first, [BannerChunk()]);
  }

  /** Both entry points together: every group lists the banner's tags after those of `main.js`. */
  lemma MultipleEntryTags(basePath: string, types: Table)
    requires "png" in types && types["png"] == Image("image/png")
    ensures ImportsClosed(FixtureChunks())
    ensures CreateTags(Manifest(false, FixtureChunks(), types, basePath), ["main.js", "consent-banner.js"]) == Ok(Tags(
      CreatePreloadTags(basePath, types, [MainChunk(), SharedChunk(), BannerChunk()]),
      CreateStyleTags(basePath, [MainChunk(), SharedChunk(), BannerChunk()]),
      CreateScriptTags(basePath, [MainChunk(), SharedChunk(), BannerChunk()])))
  {
    MultipleEntryResolution();
    ThreeChunksOf();
  }

  lemma ThreeChunksOf()
    ensures ChunksOf(FixtureChunks(), ["main.js", Shared, "consent-banner.js"]) == [MainChunk(), SharedChunk(), BannerChunk()]
  {
    var chunks := FixtureChunks();
    assert chunks["main.js"] == MainChunk() && chunks[Shared] == SharedChunk() && chunks["consent-banner.js"] == BannerChunk();
  }

  /** `getURL` on the dynamically imported view: its published file in production, its own name in development. */
  lemma GetUrlOfView(types: Table, basePath: string, decoded: map<string, Record>)
    ensures GetURL(Manifest(false, FixtureChunks(), types, basePath), "views/foo.js") == Ok(Url(basePath, "assets/foo.869aea0d.js"))
    ensures GetURL(Load(true, decoded, basePath), "views/foo.js") == Ok(Url(basePath, "views/foo.js"))
  {
    assert FixtureChunks()["views/foo.js"] == FooChunk();
  }

  /** An unknown name makes `createTags` fail. */
  lemma MissingEntryFails()
    ensures ImportsClosed(ProdManifest().chunks)
    ensures CreateTags(ProdManifest(), ["does-not-exist.js"]) == Err(EntryNotFound("does-not-exist.js"))
  {
    FixtureImportsClosed();
    assert "does-not-exist.js" !in FixtureChunks();
    assert Resolve(FixtureChunks(), ["does-not-exist.js"]) == Err(EntryNotFound("does-not-exist.js"));
  }

  /** A chunk that is not an entry point makes `createTags` fail, even after a valid entry. */
  lemma NonEntryFails()
    ensures ImportsClosed(ProdManifest().chunks)
    ensures CreateTags(ProdManifest(), ["views/foo.js"]) == Err(NotAnEntryPoint("views/foo.js"))
    ensures CreateTags(ProdManifest(), ["main.js", "views/foo.js"]) == Err(NotAnEntryPoint("views/foo.js"))
  {
    FixtureImportsClosed();
    var chunks := FixtureChunks();
    assert chunks["views/foo.js"] == FooChunk();
    assert Resolve(chunks, ["views/foo.js"]) == Err(NotAnEntryPoint("views/foo.js"));
    assert ["main.js", "views/foo.js"][1..] == ["views/foo.js"];
    assert Resolve(chunks, ["main.js", "views/foo.js"]) == Err(NotAnEntryPoint("views/foo.js"));
  }
}
