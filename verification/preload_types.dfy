/**
 * The registry of preloadable asset types: a file extension (without the leading dot)
 * maps to the MIME type and the `as` attribute of its preload link. Assets whose
 * extension is not registered get no preload link at all.
 */
module PreloadTypes {

  datatype PreloadType = PreloadType(mimeType: string, preloadAs: string)

  type Table = map<string, PreloadType>

  /** `preload($ext, $mimeType, $preloadAs)`: registers one extension, replacing what it had. */
  function Register(table: Table, ext: string, mimeType: string, preloadAs: string): (r: Table)
    ensures r.Keys == table.Keys + {ext}
    ensures r[ext] == PreloadType(mimeType, preloadAs)
    ensures forall k | k in table && k != ext :: r[k] == table[k]
  {
    table[ext := PreloadType(mimeType, preloadAs)]
  }

  /**
   * `array_merge($table, $fixed)` on string keys: every key of either table, the value of
   * `fixed` wherever both have one.
   */
  function Merge(table: Table, fixed: Table): (r: Table)
    ensures r.Keys == table.Keys + fixed.Keys
    ensures forall k | k in fixed :: r[k] == fixed[k]
    ensures forall k | k in table && k !in fixed :: r[k] == table[k]
  {
    table + fixed
  }

  function Image(mimeType: string): PreloadType { PreloadType(mimeType, "image") }

  function Font(mimeType: string): PreloadType { PreloadType(mimeType, "font") }

  /** The common web image formats. */
  const ImageTypes: Table := map[
    "apng" := Image("image/apng"),
    "avif" := Image("image/avif"),
    "bmp" := Image("image/bmp"),
    "cur" := Image("image/x-icon"),
    "gif" := Image("image/gif"),
    "ico" := Image("image/x-icon"),
    "jpeg" := Image("image/jpeg"),
    "jpg" := Image("image/jpeg"),
    "png" := Image("image/png"),
    "svg" := Image("image/svg+xml"),
    "tif" := Image("image/tiff"),
    "tiff" := Image("image/tiff"),
    "webp" := Image("image/webp")]

  /** The common web font formats. */
  const FontTypes: Table := map[
    "ttf" := Font("font/ttf"),
    "otf" := Font("font/otf"),
    "woff" := Font("font/woff"),
    "woff2" := Font("font/woff2")]

  /** `preloadImages()`: every image extension gets its built-in type; other extensions keep theirs. */
  function RegisterImages(table: Table): (r: Table)
    ensures r.Keys == table.Keys + ImageTypes.Keys
    ensures forall k | k in ImageTypes :: r[k] == ImageTypes[k] && r[k].preloadAs == "image"
    ensures forall k | k in table && k !in ImageTypes :: r[k] == table[k]
  {
    Merge(table, ImageTypes)
  }

  /** `preloadFonts()`: every font extension gets its built-in type; other extensions keep theirs. */
  function RegisterFonts(table: Table): (r: Table)
    ensures r.Keys == table.Keys + FontTypes.Keys
    ensures forall k | k in FontTypes :: r[k] == FontTypes[k] && r[k].preloadAs == "font"
    ensures forall k | k in table && k !in FontTypes :: r[k] == table[k]
  {
    Merge(table, FontTypes)
  }

  /** Only the last registration of an extension has any effect. */
  lemma RegisterLastWins(table: Table, ext: string, m1: string, a1: string, m2: string, a2: string)
    ensures Register(Register(table, ext, m1, a1), ext, m2, a2) == Register(table, ext, m2, a2)
  {
  }

  /** Registrations of two different extensions do not interfere, whatever their order. */
  lemma RegisterCommutes(table: Table, e1: string, m1: string, a1: string, e2: string, m2: string, a2: string)
    requires e1 != e2
    ensures Register(Register(table, e1, m1, a1), e2, m2, a2) == Register(Register(table, e2, m2, a2), e1, m1, a1)
  {
  }

  /** A built-in table registered after a single extension overrides it, on that table's keys only. */
  lemma BuiltInOverridesEarlierRegistration(table: Table, ext: string, mimeType: string, preloadAs: string)
    ensures ext in ImageTypes ==> RegisterImages(Register(table, ext, mimeType, preloadAs))[ext] == ImageTypes[ext]
    ensures ext !in ImageTypes ==> RegisterImages(Register(table, ext, mimeType, preloadAs))[ext] == PreloadType(mimeType, preloadAs)
    ensures ext in FontTypes ==> RegisterFonts(Register(table, ext, mimeType, preloadAs))[ext] == FontTypes[ext]
    ensures ext !in FontTypes ==> RegisterFonts(Register(table, ext, mimeType, preloadAs))[ext] == PreloadType(mimeType, preloadAs)
  {
  }

  /** Registering a built-in table twice is the same as registering it once. */
  lemma RegisterBuiltInIdempotent(table: Table)
    ensures RegisterImages(RegisterImages(table)) == RegisterImages(table)
    ensures RegisterFonts(RegisterFonts(table)) == RegisterFonts(table)
  {
  }

  /** The image and font tables share no extension. */
  lemma ImageAndFontTypesDisjoint()
    ensures ImageTypes.Keys !! FontTypes.Keys
  {
    assert FontTypes.Keys == {"ttf", "otf", "woff", "woff2"};
    assert "ttf" !in ImageTypes && "otf" !in ImageTypes;
    assert "woff" !in ImageTypes && "woff2" !in ImageTypes;
  }

  /** As their tables share no extension, the two bulk registrations commute. */
  lemma ImagesAndFontsCommute(table: Table)
    ensures RegisterFonts(RegisterImages(table)) == RegisterImages(RegisterFonts(table))
  {
    ImageAndFontTypesDisjoint();
  }
}
