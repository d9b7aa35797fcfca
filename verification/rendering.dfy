/**
 * Rendering of resolved chunks into the three groups of HTML tags: preload links,
 * stylesheet links and module scripts. Every URL is the base path followed directly by
 * the chunk-relative path; nothing is escaped or normalised.
 */
module Rendering {
  import opened Wrappers
  import opened Chunks
  import opened PreloadTypes
  import opened PhpStrings

  /** The `Tags` value: preload, stylesheet and script markup, each a newline-joined group. */
  datatype Tags = Tags(preload: string, css: string, js: string)

  function Url(basePath: string, path: string): string {
    basePath + path
  }

  function ModulePreloadTag(url: string): string {
    "<link rel=\"modulepreload\" href=\"" + url + "\" />"
  }

  function AssetPreloadTag(t: PreloadType, url: string): string {
    "<link rel=\"preload\" as=\"" + t.preloadAs + "\" type=\"" + t.mimeType + "\" href=\"" + url + "\" />"
  }

  function StylesheetTag(url: string): string {
    "<link rel=\"stylesheet\" href=\"" + url + "\" />"
  }

  function ScriptTag(url: string): string {
    "<script type=\"module\" src=\"" + url + "\"></script>"
  }

  /**
   * `substr($asset, strrpos($asset, '.') + 1)`: what follows the last `.`. Without any `.`,
   * `strrpos` gives `false`, `false + 1` is `1`, and `substr` drops the first byte. For an
   * ASCII first character that is the name minus that character. For any other first
   * character it leaves the tail of that character's UTF-8 encoding, which begins with a
   * continuation byte and so is no text at all: `None`, an extension no table written as
   * text can hold.
   */
  function Extension(asset: string): (ext: Option<string>)
    ensures ext.Some? ==> EndsWith(asset, ext.value) && '.' !in ext.value
    ensures ext.None? <==> '.' !in asset && asset != [] && asset[0] >= 128 as char
  {
    match LastIndexOf(asset, '.')
    case Some(i) => Some(asset[i + 1..])
    case None =>
      if asset == [] then Some([])
      else if asset[0] < 128 as char then Some(asset[1..])
      else None
  }

  /** The registered type of an asset's extension, if any. */
  function Lookup(types: Table, asset: string): Option<PreloadType> {
    match Extension(asset)
    case Some(ext) => if ext in types then Some(types[ext]) else None
    case None => None
  }

  /** The preload link of one asset, if its extension is registered. */
  function AssetPreload(basePath: string, types: Table, asset: string): seq<string> {
    match Lookup(types, asset)
    case Some(t) => [AssetPreloadTag(t, Url(basePath, asset))]
    case None => []
  }

  /** One preload link per asset whose extension is registered, in asset order. */
  function AssetPreloads(basePath: string, types: Table, assets: seq<string>): seq<string>
    decreases |assets|
  {
    if assets == [] then []
    else AssetPreload(basePath, types, assets[0]) + AssetPreloads(basePath, types, assets[1..])
  }

  /** A chunk's module preload (only for a `.js` file), then its asset preloads. */
  function ChunkPreloads(basePath: string, types: Table, c: Chunk): seq<string> {
    (if EndsWith(c.file, ".js") then [ModulePreloadTag(Url(basePath, c.file))] else [])
      + AssetPreloads(basePath, types, c.assets)
  }

  function PreloadList(basePath: string, types: Table, cs: seq<Chunk>): seq<string>
    decreases |cs|
  {
    if cs == [] then [] else ChunkPreloads(basePath, types, cs[0]) + PreloadList(basePath, types, cs[1..])
  }

  function StylesheetTags(basePath: string, css: seq<string>): seq<string> {
    seq(|css|, i requires 0 <= i < |css| => StylesheetTag(Url(basePath, css[i])))
  }

  function StyleList(basePath: string, cs: seq<Chunk>): seq<string>
    decreases |cs|
  {
    if cs == [] then [] else StylesheetTags(basePath, cs[0].css) + StyleList(basePath, cs[1..])
  }

  function ScriptList(basePath: string, cs: seq<Chunk>): seq<string>
    decreases |cs|
  {
    if cs == [] then []
    else (if cs[0].isEntry then [ScriptTag(Url(basePath, cs[0].file))] else []) + ScriptList(basePath, cs[1..])
  }

  /**
   * `createPreloadTags($chunks)`: the empty string exactly when no chunk has a preload, and
   * otherwise starts with the first preload of the first chunk that yields one.
   */
  function CreatePreloadTags(basePath: string, types: Table, cs: seq<Chunk>): (r: string)
    ensures r == "" <==> PreloadList(basePath, types, cs) == []
    ensures PreloadList(basePath, types, cs) != [] ==> IsPrefix(PreloadList(basePath, types, cs)[0], r)
  {
    PreloadTagsNonEmpty(basePath, types, cs);
    var tags := PreloadList(basePath, types, cs);
    assert tags != [] ==> tags[0] in tags;
    Implode('\n', tags)
  }

  /**
   * `createStyleTags($chunks)`: the empty string exactly when no chunk has a stylesheet,
   * and otherwise starts with the first stylesheet link.
   */
  function CreateStyleTags(basePath: string, cs: seq<Chunk>): (r: string)
    ensures r == "" <==> StyleList(basePath, cs) == []
    ensures StyleList(basePath, cs) != [] ==> IsPrefix(StyleList(basePath, cs)[0], r)
  {
    StyleTagsNonEmpty(basePath, cs);
    var tags := StyleList(basePath, cs);
    assert tags != [] ==> tags[0] in tags;
    Implode('\n', tags)
  }

  /**
   * `createScriptTags($chunks)`: the empty string exactly when no chunk is an entry point,
   * and otherwise starts with the first entry point's script.
   */
  function CreateScriptTags(basePath: string, cs: seq<Chunk>): (r: string)
    ensures r == "" <==> ScriptList(basePath, cs) == []
    ensures ScriptList(basePath, cs) != [] ==> IsPrefix(ScriptList(basePath, cs)[0], r)
  {
    ScriptTagsNonEmpty(basePath, cs);
    var tags := ScriptList(basePath, cs);
    assert tags != [] ==> tags[0] in tags;
    Implode('\n', tags)
  }

  // ---------------------------------------------------------------------------
  // Asset extensions.

  /** The extension of `stem.ext` is `ext`, whatever dots the stem holds. */
  lemma ExtensionOfDottedName(stem: string, ext: string)
    requires '.' !in ext
    ensures Extension(stem + "." + ext) == Some(ext)
  {
    var s := stem + "." + ext;
    assert s[|stem|] == '.' && s[|stem| + 1..] == ext;
  }

  /**
   * An asset without any `.` is looked up under its name minus the first character when
   * that character is ASCII, and matches no extension otherwise.
   */
  lemma ExtensionWithoutDot(asset: string)
    requires '.' !in asset && asset != []
    ensures asset[0] < 128 as char ==> Extension(asset) == Some(asset[1..])
    ensures asset[0] >= 128 as char ==> Extension(asset) == None
  {
  }

  /** A dot-free asset whose name starts with a non-ASCII character gets no preload, whatever is registered. */
  lemma NonAsciiDotFreeAssetNotPreloaded(basePath: string, types: Table, asset: string)
    requires '.' !in asset && asset != [] && asset[0] >= 128 as char
    ensures AssetPreload(basePath, types, asset) == []
  {
  }

  // ---------------------------------------------------------------------------
  // Order: each list is built chunk by chunk.

  lemma {:induction false} AssetPreloadsAppend(basePath: string, types: Table, a: seq<string>, b: seq<string>)
    ensures AssetPreloads(basePath, types, a + b) == AssetPreloads(basePath, types, a) + AssetPreloads(basePath, types, b)
    decreases |a|
  {
    if a == [] {
      assert a + b == b;
    } else {
      assert (a + b)[0] == a[0] && (a + b)[1..] == a[1..] + b;
      AssetPreloadsAppend(basePath, types, a[1..], b);
    }
  }

  /** The preload list of two runs of chunks is the first run's list followed by the second's. */
  lemma {:induction false} PreloadListAppend(basePath: string, types: Table, a: seq<Chunk>, b: seq<Chunk>)
    ensures PreloadList(basePath, types, a + b) == PreloadList(basePath, types, a) + PreloadList(basePath, types, b)
    decreases |a|
  {
    if a == [] {
      assert a + b == b;
    } else {
      var head := ChunkPreloads(basePath, types, a[0]);
      assert (a + b)[0] == a[0] && (a + b)[1..] == a[1..] + b;
      PreloadListAppend(basePath, types, a[1..], b);
      calc {
        PreloadList(basePath, types, a + b);
        head + PreloadList(basePath, types, a[1..] + b);
        head + (PreloadList(basePath, types, a[1..]) + PreloadList(basePath, types, b));
        (head + PreloadList(basePath, types, a[1..])) + PreloadList(basePath, types, b);
      }
    }
  }

  lemma {:induction false} StyleListAppend(basePath: string, a: seq<Chunk>, b: seq<Chunk>)
    ensures StyleList(basePath, a + b) == StyleList(basePath, a) + StyleList(basePath, b)
    decreases |a|
  {
    if a == [] {
      assert a + b == b;
    } else {
      assert (a + b)[0] == a[0] && (a + b)[1..] == a[1..] + b;
      StyleListAppend(basePath, a[1..], b);
    }
  }

  lemma {:induction false} ScriptListAppend(basePath: string, a: seq<Chunk>, b: seq<Chunk>)
    ensures ScriptList(basePath, a + b) == ScriptList(basePath, a) + ScriptList(basePath, b)
    decreases |a|
  {
    if a == [] {
      assert a + b == b;
    } else {
      assert (a + b)[0] == a[0] && (a + b)[1..] == a[1..] + b;
      ScriptListAppend(basePath, a[1..], b);
    }
  }

  // ---------------------------------------------------------------------------
  // Contents: which tags each list holds.

  /** A tag is an asset preload iff some asset with a registered extension produced it. */
  lemma {:induction false} AssetPreloadsMembers(basePath: string, types: Table, assets: seq<string>, t: string)
    ensures t in AssetPreloads(basePath, types, assets) <==>
      exists j | 0 <= j < |assets| :: Lookup(types, assets[j]).Some?
        && t == AssetPreloadTag(Lookup(types, assets[j]).value, Url(basePath, assets[j]))
    decreases |assets|
  {
    if assets != [] {
      AssetPreloadsMembers(basePath, types, assets[1..], t);
      if t in AssetPreloads(basePath, types, assets[1..]) {
        var j :| 0 <= j < |assets[1..]| && Lookup(types, assets[1..][j]).Some?
          && t == AssetPreloadTag(Lookup(types, assets[1..][j]).value, Url(basePath, assets[1..][j]));
        assert assets[j + 1] == assets[1..][j];
      }
      if exists j | 0 <= j < |assets| ::
          (Lookup(types, assets[j]).Some? && t == AssetPreloadTag(Lookup(types, assets[j]).value, Url(basePath, assets[j]))) {
        var j :| 0 <= j < |assets| && Lookup(types, assets[j]).Some?
          && t == AssetPreloadTag(Lookup(types, assets[j]).value, Url(basePath, assets[j]));
        if j > 0 {
          assert assets[1..][j - 1] == assets[j];
        }
      }
    }
  }

  /**
   * A tag is in the preload list iff it is the module preload of a resolved `.js` file or
   * the preload of a registered asset of a resolved chunk.
   */
  lemma {:induction false} PreloadListMembers(basePath: string, types: Table, cs: seq<Chunk>, t: string)
    ensures t in PreloadList(basePath, types, cs) <==>
      exists i | 0 <= i < |cs| ::
        || (EndsWith(cs[i].file, ".js") && t == ModulePreloadTag(Url(basePath, cs[i].file)))
        || t in AssetPreloads(basePath, types, cs[i].assets)
    decreases |cs|
  {
    if cs != [] {
      PreloadListMembers(basePath, types, cs[1..], t);
      if t in PreloadList(basePath, types, cs[1..]) {
        var i :| 0 <= i < |cs[1..]| &&
          (|| (EndsWith(cs[1..][i].file, ".js") && t == ModulePreloadTag(Url(basePath, cs[1..][i].file)))
           || t in AssetPreloads(basePath, types, cs[1..][i].assets));
        assert cs[i + 1] == cs[1..][i];
      }
      if exists i | 0 <= i < |cs| ::
          || (EndsWith(cs[i].file, ".js") && t == ModulePreloadTag(Url(basePath, cs[i].file)))
          || t in AssetPreloads(basePath, types, cs[i].assets) {
        var i :| 0 <= i < |cs| &&
          (|| (EndsWith(cs[i].file, ".js") && t == ModulePreloadTag(Url(basePath, cs[i].file)))
           || t in AssetPreloads(basePath, types, cs[i].assets));
        if i > 0 {
          assert cs[1..][i - 1] == cs[i];
        }
      }
    }
  }

  /** A tag is a stylesheet link iff it links one of the CSS files of a resolved chunk. */
  lemma {:induction false} StyleListMembers(basePath: string, cs: seq<Chunk>, t: string)
    ensures t in StyleList(basePath, cs) <==>
      exists i, j | 0 <= i < |cs| && 0 <= j < |cs[i].css| :: t == StylesheetTag(Url(basePath, cs[i].css[j]))
    decreases |cs|
  {
    if cs != [] {
      StyleListMembers(basePath, cs[1..], t);
      var first := StylesheetTags(basePath, cs[0].css);
      if t in first {
        var j :| 0 <= j < |first| && first[j] == t;
        assert t == StylesheetTag(Url(basePath, cs[0].css[j]));
      }
      if t in StyleList(basePath, cs[1..]) {
        var i, j :| 0 <= i < |cs[1..]| && 0 <= j < |cs[1..][i].css| && t == StylesheetTag(Url(basePath, cs[1..][i].css[j]));
        assert cs[i + 1] == cs[1..][i];
      }
      if exists i, j | 0 <= i < |cs| && 0 <= j < |cs[i].css| :: t == StylesheetTag(Url(basePath, cs[i].css[j])) {
        var i, j :| 0 <= i < |cs| && 0 <= j < |cs[i].css| && t == StylesheetTag(Url(basePath, cs[i].css[j]));
        if i == 0 {
          assert first[j] == t;
        } else {
          assert cs[1..][i - 1] == cs[i];
        }
      }
    }
  }

  /** A tag is a module script iff it loads the file of a resolved entry chunk; other chunks get none. */
  lemma {:induction false} ScriptListMembers(basePath: string, cs: seq<Chunk>, t: string)
    ensures t in ScriptList(basePath, cs) <==>
      exists i | 0 <= i < |cs| :: cs[i].isEntry && t == ScriptTag(Url(basePath, cs[i].file))
    decreases |cs|
  {
    if cs != [] {
      ScriptListMembers(basePath, cs[1..], t);
      if t in ScriptList(basePath, cs[1..]) {
        var i :| 0 <= i < |cs[1..]| && cs[1..][i].isEntry && t == ScriptTag(Url(basePath, cs[1..][i].file));
        assert cs[i + 1] == cs[1..][i];
      }
      if exists i | 0 <= i < |cs| :: cs[i].isEntry && t == ScriptTag(Url(basePath, cs[i].file)) {
        var i :| 0 <= i < |cs| && cs[i].isEntry && t == ScriptTag(Url(basePath, cs[i].file));
        if i > 0 {
          assert cs[1..][i - 1] == cs[i];
        }
      }
    }
  }

  // ---------------------------------------------------------------------------
  // No tag is empty.

  lemma PreloadTagsNonEmpty(basePath: string, types: Table, cs: seq<Chunk>)
    ensures forall t | t in PreloadList(basePath, types, cs) :: t != ""
  {
    forall t | t in PreloadList(basePath, types, cs)
      ensures t != ""
    {
      PreloadListMembers(basePath, types, cs, t);
      var i :| 0 <= i < |cs| &&
        (|| (EndsWith(cs[i].file, ".js") && t == ModulePreloadTag(Url(basePath, cs[i].file)))
         || t in AssetPreloads(basePath, types, cs[i].assets));
      if t in AssetPreloads(basePath, types, cs[i].assets) {
        AssetPreloadsMembers(basePath, types, cs[i].assets, t);
      }
    }
  }

  lemma StyleTagsNonEmpty(basePath: string, cs: seq<Chunk>)
    ensures forall t | t in StyleList(basePath, cs) :: t != ""
  {
    forall t | t in StyleList(basePath, cs)
      ensures t != ""
    {
      StyleListMembers(basePath, cs, t);
    }
  }

  lemma ScriptTagsNonEmpty(basePath: string, cs: seq<Chunk>)
    ensures forall t | t in ScriptList(basePath, cs) :: t != ""
  {
    forall t | t in ScriptList(basePath, cs)
      ensures t != ""
    {
      ScriptListMembers(basePath, cs, t);
    }
  }

  // ---------------------------------------------------------------------------
  // Newline-joined groups.

  /** No path of the chunks, nor the base path, holds a line break. */
  predicate SingleLinePaths(basePath: string, cs: seq<Chunk>) {
    && '\n' !in basePath
    && forall i | 0 <= i < |cs| ::
      && '\n' !in cs[i].file
      && (forall j | 0 <= j < |cs[i].css| :: '\n' !in cs[i].css[j])
      && (forall j | 0 <= j < |cs[i].assets| :: '\n' !in cs[i].assets[j])
  }

  predicate SingleLineTypes(types: Table) {
    forall ext | ext in types :: '\n' !in types[ext].mimeType && '\n' !in types[ext].preloadAs
  }

  lemma NoNewlineConcat(a: string, b: string)
    requires '\n' !in a && '\n' !in b
    ensures '\n' !in a + b
  {
  }

  lemma ModulePreloadTagSingleLine(url: string)
    requires '\n' !in url
    ensures '\n' !in ModulePreloadTag(url)
  {
    NoNewlineConcat("<link rel=\"modulepreload\" href=\"", url);
    NoNewlineConcat("<link rel=\"modulepreload\" href=\"" + url, "\" />");
  }

  lemma StylesheetTagSingleLine(url: string)
    requires '\n' !in url
    ensures '\n' !in StylesheetTag(url)
  {
    NoNewlineConcat("<link rel=\"stylesheet\" href=\"", url);
    NoNewlineConcat("<link rel=\"stylesheet\" href=\"" + url, "\" />");
  }

  lemma ScriptTagSingleLine(url: string)
    requires '\n' !in url
    ensures '\n' !in ScriptTag(url)
  {
    NoNewlineConcat("<script type=\"module\" src=\"", url);
    NoNewlineConcat("<script type=\"module\" src=\"" + url, "\"></script>");
  }

  lemma StyleSingleLine(basePath: string, cs: seq<Chunk>, t: string)
    requires SingleLinePaths(basePath, cs)
    requires t in StyleList(basePath, cs)
    ensures '\n' !in t
  {
    StyleListMembers(basePath, cs, t);
    var i, j :| 0 <= i < |cs| && 0 <= j < |cs[i].css| && t == StylesheetTag(Url(basePath, cs[i].css[j]));
    NoNewlineConcat(basePath, cs[i].css[j]);
    StylesheetTagSingleLine(Url(basePath, cs[i].css[j]));
  }

  lemma ScriptSingleLine(basePath: string, cs: seq<Chunk>, t: string)
    requires SingleLinePaths(basePath, cs)
    requires t in ScriptList(basePath, cs)
    ensures '\n' !in t
  {
    ScriptListMembers(basePath, cs, t);
    var i :| 0 <= i < |cs| && cs[i].isEntry && t == ScriptTag(Url(basePath, cs[i].file));
    NoNewlineConcat(basePath, cs[i].file);
    ScriptTagSingleLine(Url(basePath, cs[i].file));
  }

  /**
   * Splitting the stylesheet group at line breaks gives back its tags one by one: the tags
   * are joined by single newlines, with none before the first or after the last.
   */
  lemma StyleTagsSplit(basePath: string, cs: seq<Chunk>)
    requires SingleLinePaths(basePath, cs)
    requires StyleList(basePath, cs) != []
    ensures Explode('\n', CreateStyleTags(basePath, cs)) == StyleList(basePath, cs)
  {
    var tags := StyleList(basePath, cs);
    forall k | 0 <= k < |tags|
      ensures '\n' !in tags[k]
    {
      StyleSingleLine(basePath, cs, tags[k]);
    }
    ExplodeImplode('\n', tags);
  }

  lemma ScriptTagsSplit(basePath: string, cs: seq<Chunk>)
    requires SingleLinePaths(basePath, cs)
    requires ScriptList(basePath, cs) != []
    ensures Explode('\n', CreateScriptTags(basePath, cs)) == ScriptList(basePath, cs)
  {
    var tags := ScriptList(basePath, cs);
    forall k | 0 <= k < |tags|
      ensures '\n' !in tags[k]
    {
      ScriptSingleLine(basePath, cs, tags[k]);
    }
    ExplodeImplode('\n', tags);
  }

  lemma AssetPreloadSingleLine(basePath: string, types: Table, assets: seq<string>, t: string)
    requires '\n' !in basePath && SingleLineTypes(types)
    requires forall j | 0 <= j < |assets| :: '\n' !in assets[j]
    requires t in AssetPreloads(basePath, types, assets)
    ensures '\n' !in t
  {
    AssetPreloadsMembers(basePath, types, assets, t);
    var j :| 0 <= j < |assets| && Lookup(types, assets[j]).Some?
      && t == AssetPreloadTag(Lookup(types, assets[j]).value, Url(basePath, assets[j]));
    NoNewlineConcat(basePath, assets[j]);
    AssetPreloadTagSingleLine(Lookup(types, assets[j]).value, Url(basePath, assets[j]));
  }

  lemma AssetPreloadTagSingleLine(t: PreloadType, url: string)
    requires '\n' !in t.mimeType && '\n' !in t.preloadAs && '\n' !in url
    ensures '\n' !in AssetPreloadTag(t, url)
  {
    var parts := ["<link rel=\"preload\" as=\"", t.preloadAs, "\" type=\"", t.mimeType, "\" href=\"", url, "\" />"];
    var tag := AssetPreloadTag(t, url);
    assert tag == parts[0] + parts[1] + parts[2] + parts[3] + parts[4] + parts[5] + parts[6];
    NoNewlineConcat(parts[0], parts[1]);
    NoNewlineConcat(parts[0] + parts[1], parts[2]);
    NoNewlineConcat(parts[0] + parts[1] + parts[2], parts[3]);
    NoNewlineConcat(parts[0] + parts[1] + parts[2] + parts[3], parts[4]);
    NoNewlineConcat(parts[0] + parts[1] + parts[2] + parts[3] + parts[4], parts[5]);
    NoNewlineConcat(parts[0] + parts[1] + parts[2] + parts[3] + parts[4] + parts[5], parts[6]);
  }

  lemma PreloadSingleLine(basePath: string, types: Table, cs: seq<Chunk>, t: string)
    requires SingleLinePaths(basePath, cs) && SingleLineTypes(types)
    requires t in PreloadList(basePath, types, cs)
    ensures '\n' !in t
  {
    PreloadListMembers(basePath, types, cs, t);
    var i :| 0 <= i < |cs| &&
      (|| (EndsWith(cs[i].file, ".js") && t == ModulePreloadTag(Url(basePath, cs[i].file)))
       || t in AssetPreloads(basePath, types, cs[i].assets));
    if t in AssetPreloads(basePath, types, cs[i].assets) {
      AssetPreloadSingleLine(basePath, types, cs[i].assets, t);
    } else {
      NoNewlineConcat(basePath, cs[i].file);
      ModulePreloadTagSingleLine(Url(basePath, cs[i].file));
    }
  }

  lemma PreloadTagsSplit(basePath: string, types: Table, cs: seq<Chunk>)
    requires SingleLinePaths(basePath, cs) && SingleLineTypes(types)
    requires PreloadList(basePath, types, cs) != []
    ensures Explode('\n', CreatePreloadTags(basePath, types, cs)) == PreloadList(basePath, types, cs)
  {
    var tags := PreloadList(basePath, types, cs);
    forall k | 0 <= k < |tags|
      ensures '\n' !in tags[k]
    {
      PreloadSingleLine(basePath, types, cs, tags[k]);
    }
    ExplodeImplode('\n', tags);
  }
}
