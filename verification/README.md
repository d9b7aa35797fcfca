# php-vite manifest resolver, modelled in Dafny

`ngekoding/php-vite` reads the `manifest.json` that Vite writes at build time. It turns
one or more entry-point names into the three groups of HTML tags a server-rendered page
needs:
- module and asset preloads;
- stylesheet links;
- module scripts.

This project models the part of the library that runs after the manifest has been decoded:
- `Chunk::create`, which fills a chunk record from a loosely typed decoded record, supplying
  defaults for absent fields;
- the preload-type registry (`preload`, `preloadImages`, `preloadFonts`);
- `findImportedChunks`, which walks static imports with a first-in first-out worklist and
  collects the chunks in a PHP ordered map;
- the three renderers `createPreloadTags`, `createStyleTags` and `createScriptTags`;
- `createTags` and `getURL`, which both switch between development and production mode.

Modules:
- `Wrappers`: `Option` and `Result`.
- `PhpStrings`: PHP string built-ins over `seq<char>`.
  - The library uses `implode`, `strrpos` and the `substr_compare` suffix test.
  - `explode` is used only by the repository's PHPUnit test (test/ManifestTest.php:40).
    It is modelled so that the joined groups can be split back into their tags.
- `Chunks`: the `Chunk` record, the decoded record it is built from, `Create`, and an
  `Encode` inverse used to state the round trip.
- `PreloadTypes`: the extension → (MIME type, `as`) table and its three update operations.
- `Resolution`: the import closure.
  - The PHP ordered map is modelled by the sequence of its keys. Its values are always
    `chunks[key]`.
  - `Insert` is PHP's "assign to a key": a new key goes last, an existing key keeps its
    place.
  - `Walk`/`ResolveFrom`/`Resolve` is the functional definition.
  - `FindImportedChunks` (with `DrainQueue`) is the worklist loop as the source writes it,
    proved equal to `Resolve`.
  - Reachability through static import paths (`Reachable`, `Covered`) is the independent
    description that `Resolve` is proved to match.
- `Rendering`: the tag markup, the extension of an asset, the three tag lists and their
  newline-joined groups.
- `Manifests`: the manifest state and the public operations. It also holds the properties
  that relate `createTags` to `getURL`.
- `Scenarios`: the behaviour the repository's PHPUnit suite asserts, on chunks
  reconstructed from those assertions.

Where PHP is subtle:
- `findImportedChunks` resets `$imports` for each entry (src/Manifest.php:331). So each
  entry's closure is drained before the next entry is looked up.
- A chunk that was already found as an import of an earlier entry keeps its first
  position when it is later requested as an entry (src/Manifest.php:327).
- An asset name without any `.`: `strrpos` returns `false`, `false + 1` is `1`, and
  `substr` drops the first byte of the name.
  - If the first character is ASCII, the looked-up extension is the name minus that
    character (`Rendering.ExtensionWithoutDot`).
  - Otherwise only the first byte of that character's UTF-8 encoding is dropped. What
    remains begins with a continuation byte, which cannot begin any extension written as
    text, so the asset
    gets no preload (`Rendering.Extension` gives `None`, see
    `Rendering.NonAsciiDotFreeAssetNotPreloaded`).
- Every static import must name a chunk of the map (`Resolution.ImportsClosed`).
  - For a missing name, PHP stores `null` under it at src/Manifest.php:337.
  - Reading `null->imports` at src/Manifest.php:339 is only a notice on PHP 7 and a warning
    on PHP 8.
  - `array_merge($imports, null)` then throws a `TypeError` on PHP 8. On PHP 7 it warns and
    yields `null`, which ends the walk for that entry. The `null` entry stays in the result,
    and the renderers pass over it with further warnings.
  - The model leaves these manifests out.
- `Chunk::create` reads `file` without an `isset` check (src/Chunk.php:143). A record
  without `file` draws a notice, and PHP builds a chunk whose file is `null`.
  `Chunks.Create` requires `file` to be present and to be a string, so it does not model
  such a chunk.
- In development mode, `createTags` neither looks anything up nor fails. Both the
  development-mode tags and `getURL` in development mode depend only on the base path and
  the requested name.

## Model

| member | source | states |
|---|---|---|
| Chunks.Create | src/Chunk.php:136-149 | `file` is copied verbatim. Each optional field is copied when set, and otherwise gets its empty value: no `src`/`name`, `false` flags, empty lists. |
| Chunks.CreateEncode | src/Chunk.php:119-130 | Encoding any chunk as a full record and creating from it gives the same chunk back: every field, and the order of every list, survive. |
| Chunks.CreateDefaults | src/Chunk.php:139-147 | A record holding only `file` creates a chunk with no `src` or `name`, both flags false, and all four lists empty. |
| Chunks.CreateIgnoresOtherKeys | src/Chunk.php:138-148 | Adding or changing a key other than the nine documented fields does not change the created chunk. |
| Chunks.CreateDependsOnSetFields | src/Chunk.php:138-148 | Two records that agree on which documented fields are set, and on their values, create the same chunk. |
| Chunks.CreateNullIsAbsent | src/Chunk.php:139-147 | Since `isset` is false for `null`, a field set to `null` creates the same chunk as the field being absent. |
| PhpStrings.LastIndexOf | src/Manifest.php:260 | `strrpos`: returns the index of the last occurrence of the character, with no occurrence after it. Returns nothing exactly when the character does not occur. |
| PhpStrings.Explode | test/ManifestTest.php:36-49 | `explode` always gives at least one piece, and no piece contains the separator. |
| PhpStrings.ExplodeImplode | src/Manifest.php:272 | Joining a non-empty list with a separator that none of its parts holds, then splitting, gives the list back. |
| PhpStrings.ImplodeExplode | src/Manifest.php:272 | Splitting any string at a separator and joining the pieces gives the string back. |
| PhpStrings.Implode | src/Manifest.php:272 | `implode` begins with the first part, and is empty exactly when there are no parts or a single empty part. |
| PhpStrings.ImplodeSeparatorCount | src/Manifest.php:272 | When no part holds the separator, the joined string holds exactly one separator fewer than there are parts: one between each two neighbours. |
| PhpStrings.EndsWithIffConcat | src/Manifest.php:253 | The `substr_compare` suffix test holds exactly when the string is some string followed by the suffix. |
| PreloadTypes.Register | src/Manifest.php:114-117 | `preload` adds the extension and sets its MIME type and `as` value. Every other extension keeps its entry. |
| PreloadTypes.Merge | src/Manifest.php:126-143 | `array_merge` on string keys: the result has the keys of both tables; where both have a key, the second table's value wins; otherwise the first table's value stays. |
| PreloadTypes.RegisterImages | src/Manifest.php:124-144 | Every image extension gets its built-in type with `as` value `image`; every other extension keeps its entry. |
| PreloadTypes.RegisterFonts | src/Manifest.php:151-162 | Every font extension gets its built-in type with `as` value `font`; every other extension keeps its entry. |
| PreloadTypes.RegisterLastWins | src/Manifest.php:114-117 | Registering an extension twice has the effect of the second registration alone. |
| PreloadTypes.RegisterCommutes | src/Manifest.php:114-117 | Registrations of two different extensions give the same table in either order. |
| PreloadTypes.BuiltInOverridesEarlierRegistration | src/Manifest.php:124-162 | After a single registration, `preloadImages`/`preloadFonts` replace it if their table holds that extension, and leave it otherwise. |
| PreloadTypes.RegisterBuiltInIdempotent | src/Manifest.php:124-162 | Calling `preloadImages` (or `preloadFonts`) twice is the same as calling it once. |
| PreloadTypes.ImageAndFontTypesDisjoint | src/Manifest.php:128-160 | No extension is in both the image table and the font table. |
| PreloadTypes.ImagesAndFontsCommute | src/Manifest.php:124-162 | `preloadImages` then `preloadFonts` gives the same table as the reverse order. |
| Resolution.Insert | src/Manifest.php:327 | Assigning to an ordered-map key keeps every earlier key in place, adds the key if it is new, and keeps keys distinct. |
| Resolution.Walk | src/Manifest.php:331-341 | Draining the queue loses nothing: every chunk found before and every queued import is found afterwards, and no name outside the chunk map is added. |
| Resolution.ResolveFrom | src/Manifest.php:316-342 | On success, every chunk found before and every requested entry is in the result, and no name outside the chunk map is. |
| Resolution.Resolve | src/Manifest.php:312-345 | Succeeds exactly when every requested name is an entry point. Otherwise it fails on the first name that is not, with "not found" or "not an entry point". On success: no name twice, and a name is present exactly when it is reachable from a requested entry through static imports. |
| Resolution.WalkFifo | src/Manifest.php:331-341 | The queue drains first in, first out: the queued names that are not found yet are recorded in queue order, before anything they import. |
| Resolution.ResolveOrder | src/Manifest.php:316-342 | The result starts with the result for the earlier entries, unchanged. Next come entry `k` itself (unless already present), then its direct imports not yet present, in declaration order. |
| Resolution.ResolveIgnoresDynamicImports | src/Manifest.php:331-340 | Two chunk maps with the same names, entry flags and static imports resolve identically: `dynamicImports` and the other fields are never consulted. |
| Resolution.DrainQueue | src/Manifest.php:331-341 | The inner `while ($imports)` loop yields exactly the functional walk over the queue. |
| Resolution.FindImportedChunks | src/Manifest.php:312-345 | The worklist method returns exactly `Resolve`: the same errors, the same names, in the same order. |
| Rendering.Extension | src/Manifest.php:260 | The looked-up extension, when it is text, is a suffix of the asset name and holds no `.`. It is not text exactly when the name has no `.` and starts with a non-ASCII character. |
| Rendering.ExtensionOfDottedName | src/Manifest.php:260 | For `stem.ext` with a dot-free `ext`, the extension is `ext`, whatever dots the stem holds. |
| Rendering.ExtensionWithoutDot | src/Manifest.php:260 | For a non-empty asset name without any `.`, the looked-up "extension" is the name minus its first character when that character is ASCII, and no text otherwise. |
| Rendering.NonAsciiDotFreeAssetNotPreloaded | src/Manifest.php:260-262 | A dot-free asset whose name starts with a non-ASCII character gets no preload, whatever the table registers. |
| Rendering.CreatePreloadTags | src/Manifest.php:246-273 | The preload group is the empty string exactly when no chunk yields a preload; otherwise it begins with the first preload of the first chunk that yields one. |
| Rendering.CreateStyleTags | src/Manifest.php:279-290 | The stylesheet group is the empty string exactly when no chunk has a CSS file; otherwise it begins with the first stylesheet link. |
| Rendering.CreateScriptTags | src/Manifest.php:296-307 | The script group is the empty string exactly when no chunk is an entry point; otherwise it begins with the first entry's script. |
| Rendering.AssetPreloadsMembers | src/Manifest.php:259-269 | A tag is an asset preload exactly when it is the preload, with the registered MIME type and `as` value, of some asset whose extension is registered. |
| Rendering.PreloadListMembers | src/Manifest.php:246-273 | A tag is in the preload list exactly when it is the module preload of a chunk whose file ends in `.js`, or an asset preload of some chunk. |
| Rendering.StyleListMembers | src/Manifest.php:279-290 | A tag is a stylesheet link exactly when it links one of the CSS files of some chunk. |
| Rendering.ScriptListMembers | src/Manifest.php:296-307 | A tag is a module script exactly when it loads the file of some entry chunk. Non-entry chunks get none. |
| Rendering.PreloadListAppend | src/Manifest.php:250-270 | Preloads are emitted chunk by chunk: the list for two runs of chunks is the first run's list followed by the second's. |
| Rendering.StyleListAppend | src/Manifest.php:283-287 | Stylesheet links are emitted chunk by chunk, in chunk order. |
| Rendering.ScriptListAppend | src/Manifest.php:300-304 | Module scripts are emitted chunk by chunk, in chunk order. |
| Rendering.PreloadTagsSplit | src/Manifest.php:272 | When no path, MIME type or `as` value holds a line break, splitting the preload group at newlines gives back its tags one by one. |
| Rendering.StyleTagsSplit | src/Manifest.php:289 | When no path holds a line break, splitting the stylesheet group at newlines gives back its tags one by one. |
| Rendering.ScriptTagsSplit | src/Manifest.php:306 | When no path holds a line break, splitting the script group at newlines gives back its tags one by one. |
| Manifests.Load | src/Manifest.php:79-99 | Development mode keeps no chunks. Production mode holds exactly the decoded names, each with the chunk its record creates. Both start with an empty preload table. |
| Manifests.LoadCreates | src/Manifest.php:94-99 | A production manifest holds exactly the given chunks when each decoded record creates the chunk of the same name. |
| Manifests.LoadEncoded | src/Manifest.php:94-99 | Decoding the records of any chunk map gives back that chunk map. |
| Manifests.Preload | src/Manifest.php:114-117 | `preload` changes only the registry: one extension is set, and the rest stay. |
| Manifests.PreloadImages | src/Manifest.php:124-144 | `preloadImages` adds the thirteen image types, overriding earlier entries for them and leaving other entries alone. |
| Manifests.PreloadFonts | src/Manifest.php:151-162 | `preloadFonts` adds the four font types, overriding earlier entries for them and leaving other entries alone. |
| Manifests.DevScripts | src/Manifest.php:197-201 | One tag more than requested names: Vite's client script first, then at each next position the script for the requested name at that position. |
| Manifests.CreateTags | src/Manifest.php:192-215 | Development mode always succeeds, with empty preload and stylesheet groups. Production mode succeeds exactly when every requested name is an entry point, and otherwise fails with the first offending name. |
| Manifests.GetURL | src/Manifest.php:227-240 | Development mode returns the base path followed by the name. Production mode fails exactly when the name is missing; otherwise it returns the base path followed by that chunk's file. |
| Manifests.DevModeScripts | src/Manifest.php:194-203 | In development mode the script group splits into Vite's client tag, then one tag per requested name, in request order. |
| Manifests.GetURLAcceptsNonEntry | src/Manifest.php:233-239 | `getURL` resolves a chunk that is not an entry point, while `createTags` rejects that same name. |
| Manifests.MissingNameFails | src/Manifest.php:317-321 | A name missing from the manifest makes both `getURL` and `createTags` fail with "not found". |
| Manifests.ResolveStartsWithEntry | src/Manifest.php:327 | A single requested entry comes first in its resolution. |
| Manifests.FirstScriptIsEntryURL | src/Manifest.php:296-307 | For a single entry, the script group begins with the script tag for the URL that `getURL` gives for that entry. |
| Scenarios.FixtureLoads | src/Manifest.php:94-99 | The decoded test fixture loads as the four chunks `main.js`, `views/foo.js`, the shared chunk and `consent-banner.js`. |
| Scenarios.DevModeTags | test/ManifestTest.php:17-28 | Development mode: no preloads, no stylesheets, and the scripts are Vite's client then `main.js`, whatever the manifest holds. |
| Scenarios.ProdModeResolution | test/ManifestTest.php:30-50 | `main.js` resolves to itself and the shared chunk. The dynamically imported view is left out. |
| Scenarios.PngIsImage | src/Manifest.php:137 | After `preloadImages`, `png` preloads as an image of type `image/png`. |
| Scenarios.ProdModeTags | test/ManifestTest.php:30-50 | Production mode for `main.js`, for any base path and any table that registers `png` as an image: main's module, the PNG, then the shared module; both stylesheets in chunk order; only main's script. |
| Scenarios.MultipleEntryResolution | test/ManifestTest.php:52-61 | `main.js` plus `consent-banner.js` resolves to main, the shared chunk, then the banner: the already-found shared chunk is not repeated. |
| Scenarios.ThreeChunkPreloads | test/ManifestTest.php:52-61 | With both entries, the preload list ends with the banner's module preload. |
| Scenarios.ThreeChunkStyles | test/ManifestTest.php:52-61 | With both entries, the stylesheet list ends with the banner's stylesheet. |
| Scenarios.ThreeChunkScripts | test/ManifestTest.php:52-61 | With both entries, the scripts are main's, then the banner's. |
| Scenarios.MultipleEntryTags | test/ManifestTest.php:52-61 | `createTags` with both entries renders those three chunks in that order. |
| Scenarios.MissingEntryFails | test/ManifestTest.php:63-69 | An unknown name makes `createTags` fail with "not found". |
| Scenarios.NonEntryFails | test/ManifestTest.php:71-77 | `views/foo.js` is a chunk but not an entry point, so `createTags` fails on it, even after a valid entry. |
| Scenarios.GetUrlOfView | test/ManifestTest.php:79-86 | `getURL("views/foo.js")` gives the view's published file in production, and the name itself in development. |

## Left out

- Reading the manifest file (`is_readable`, `file_exists`, `file_get_contents`) and
  `json_decode` are file I/O and deserialisation. `Manifests.Load` takes the already-decoded
  map of records, and the "manifest not found/not readable" failures are not modelled.
- Exception classes and message texts: errors are `Resolution.Error` values carrying the
  offending name.
- `Tags`' constructor defaults: the model always builds all three groups explicitly.
- HTML escaping: none is done by the library. URLs are the raw concatenation of base path
  and path, and so is the model's.
- `array_merge`'s renumbering of numeric-string keys: every key is kept as a string.
- `substr` returning `false` on older PHP versions, as PHP 8 does not.
  - For an asset name ending in `.`, PHP 5 returns `false`.
  - For an empty asset name, `substr("", 1)`, PHP 5 and PHP 7 return `false`.
  - `false` then looks up the array key `0`. The model follows PHP 8 and looks up the
    empty string.
- Rendering.Extension: strings are sequences of Unicode characters, while PHP counts
  bytes. A name or extension that is not valid UTF-8 text cannot be written in the model.
  So a dot-free name starting with a non-ASCII character is taken to match no registered
  extension.
- Chunks.Create: requires a `file` string and the documented type for every other field
  that is set (string, boolean or list).
  - A mistyped value is stored by PHP as it is. The model does not say what happens to it
    further on.
  - A record without `file` gives a chunk whose file is `null` in PHP. The model does not
    build such a chunk.
- Resolution.Resolve: requires every static import of the whole map to name a chunk, where
  PHP needs only the imports reachable from the requested entries. A manifest written by
  Vite satisfies both.
- Resolution.FindImportedChunks: carries the same requirement on static imports as
  `Resolution.Resolve`.
- Manifests.CreateTags: in production mode, requires every static import of the whole map
  to name a chunk, as `Resolution.Resolve` does.
- Scenarios.ProdModeTags: states the tags through the model's tag builders applied to the
  fixture's paths, not as the literal markup strings of the PHP test. The builders
  themselves produce the PHP markup character for character.
- The test fixture file is not part of this model. The four chunks in `Scenarios` are
  reconstructed from what the PHP tests assert about them.
