# Endorphin plugin for Vite: request ids and the resource cache

This project models in Dafny the two pieces of logic in the Endorphin plugin
for Vite.

- **The request-id parser** (`src/utils/id.ts`). It turns a bundler module id
  `path?query` into an `EndorphinRequest`. The request holds the filename, the
  root-stripped normalised filename (the cache key) and an optional
  sub-resource `type=file`. The parser returns nothing when the include/exclude
  filter or the extension list rejects the filename.
- **The resource cache** (`src/utils/cache.ts`). `add` takes a parsed template
  and makes three in-place passes over its script and stylesheet node lists:
  1. It collects the non-remote URL references (`external`) from the URLs as
     they were.
  2. It makes stylesheet URLs explicitly relative.
  3. It moves every inline `content` into a map under the key `__<i><ext>`. The
     node's `url` becomes `<normalizedFilename>?<type>=<key>`.

  The entry is then stored under the normalised filename and replaces any
  earlier entry for that file. `get`, `getScope`, `loadStyle` and `loadScript`
  serve what was stored, or fall back to reading a file.

Modules, one per source file or concern:

- `Wrappers` (`wrappers.dfy`): `Option`, which stands in for `undefined`.
- `JsString` (`js_string.dfy`): the JavaScript string operations the code
  relies on, with their ECMAScript meaning. `split(sep, limit)` keeps the first
  `limit` pieces of a full split and drops the rest. It is proved against
  `join` in both directions. Also `startsWith`, `endsWith`, and the decimal
  rendering of `${i}`.
- `Host` (`host.dfy`): the collaborators held abstract. `path.normalize`,
  `path.dirname` and `path.resolve` are function-valued fields of `PathOps`.
  `fs.readFileSync` is a `FileReader` that returns `None` when the read throws.
  `createFilter` of `@rollup/pluginutils` is a `FilterFactory`. Nothing is
  assumed about what any of them compute.
- `Types` (`types.dfy`): the record shapes of `src/types.ts`.
- `Id` (`id.dfy`): the parser. It is pure, so it is written as functions and
  lemmas.
- `Cache` (`cache.dfy`): the cache.
  - Nodes are the values `Node(kind, url, content, transformed, mime)`.
  - The two node lists of a `ParsedTemplate` are arrays. `add` updates them in
    place.
  - `EndorphinCache` is a class whose `cache` field is a map that `Add`
    reassigns.
  - Each pass is a method proved against a function on the node sequence
    (`ExternalResources`, `Relativized`, `Externalized`, `InlineResources`).
    Lemmas state what those functions mean.
- `Endorphin` (`endorphin.dfy`): how the two fit together.
  - The round trip: a synthetic URL written by `add` parses back to a
    sub-resource request whose filename is the cache key, and loading it serves
    the moved text.
  - Three scenarios: an inline style, an external style, and a recompile that
    replaces the entry.

Behaviour carried over from the code as written, which a quick reading could
get wrong:

- `split('?', 2)` and `split('=', 2)` drop everything after a second
  separator. So `a.html?x?y` has the query `x`, and `style=a=b` names the file
  `a`.
- The sub-resource type is not checked: `foo=bar` gives a sub-resource of type
  `foo`.
- `stripRoot` keeps the separator: `/app/x.html` with the root `/app` becomes
  `/x.html`. A path such as `/app2/x.html` that only starts with the root's text
  is kept whole.
- The stylesheet rewrite leaves alone URLs that start with `./` or with `..`.
  The test is for `..`, not `../`.
- `isRemoteUrl` matches `/^[a-z+-]:/`, a scheme of exactly one character from
  `a`–`z`, `+` or `-`. So `https://…` is a local reference and is resolved
  against the template's directory.
- `external` is computed before the stylesheet rewrite. After the rewrite no
  URL could look remote (`RelativeUrlSpec`).
- In `externalizeInlineResources` a node's type, and so its default extension
  and the `<type>` in its URL, comes from its node type (`cache.ts:95`). In
  `getExternal` it comes from the list the node is in.
- `add` stores the entry under `normalizedFilename`. The transform hook
  (`src/index.ts:85`, not part of this model) looks entries up by `filename`.
  The load path works because the synthetic URL's filename is the normalised
  filename.
- An inline key is `"__" + i + ext` with `ext` taken from the configured
  `types`. The key is unique per node only when no extension starts with a
  digit. If one does (`__1` + `2.js` = `__12` + `.js`), a later node overwrites
  an earlier one, as `Map.set` does. The model builds the map in the same
  last-wins order.
- Both lists are rewritten in place, and the stored entry refers to the
  mutated template.

The parser is deterministic. Every Dafny function is, so the same id and
timestamp under the same options give equal requests by construction, and no
lemma is stated for it.

## Model

| member | source | states |
|---|---|---|
| `JsString.SplitTwo` | src/utils/id.ts:48 | `s.split(c, 2)` is `[s]` when `s` has no `c`. Otherwise it is the text before the first `c` and the text between the first and second `c`; the rest is dropped. |
| `JsString.SplitTwoAtSeparator` | src/utils/id.ts:18 | When neither part contains `c`, splitting `a + c + b` on `c` with limit 2 gives exactly `[a, b]`. |
| `JsString.JoinSplitAll` | src/utils/id.ts:48 | Joining the pieces of `s.split(c)` with `c` gives back `s`. |
| `JsString.SplitAllJoin` | src/utils/id.ts:18 | Splitting the join of a non-empty list of `c`-free pieces gives back the pieces. |
| `JsString.NumberToStringInjective` | src/utils/cache.ts:97 | Different indices render as different `${i}` digit strings. |
| `Id.ParseSubResource` | src/utils/id.ts:17-25 | A sub-resource is found only when there is a query. Its type and file are non-empty and free of `=`, and the query starts with `type=file`. |
| `Id.ParseSubResourceSpec` | src/utils/id.ts:17-25 | A sub-resource is present iff the query (`''` when absent) has an `=` with non-empty text both before it and between it and the next `=`. Its type is the text before and its file the text between. |
| `Id.ParseSubResourceRejects` | src/utils/id.ts:17-25 | No sub-resource for: no query; a query without `=` (`weird`); one with nothing before its first `=` (`=x`); one with nothing after it (`style=`). |
| `Id.ParseSubResourceUncheckedType` | src/utils/id.ts:18-21 | Any non-empty `=`-free type is taken as it stands, with no check it is `script` or `style`: `foo=bar` gives type `foo`. |
| `Id.ParseSubResourceDropsTail` | src/utils/id.ts:18 | `type=file=rest` gives `type` and `file`, whatever `rest` is (`style=a=b` gives file `a`). The text after the second `=` is dropped. |
| `Id.StripRoot` | src/utils/id.ts:31-35 | When the path starts with root + `/`, the result is what follows the root and starts with `/`. Otherwise the result is the path unchanged. |
| `Id.StripRootPartialPrefix` | src/utils/id.ts:31-35 | A path that is the root followed by text not starting with `/` (e.g. `/app2/x.html` for `/app`) is kept whole. |
| `Id.StripRootUnderRoot` | src/utils/id.ts:31-35 | `root + "/" + rest` becomes `"/" + rest`. |
| `Id.Normalize` | src/utils/id.ts:27-29 | When `path.normalize(filename)` starts with root + `/`, the result is what follows the root and starts with `/`. Otherwise it is the normalised filename unchanged. |
| `Id.ParseToEndorphinRequest` | src/utils/id.ts:6-15 | The request keeps the id, the filename, the root and the timestamp. Its normalised filename is `normalize(filename, root)`. It has a sub-resource only when there is a query. |
| `Id.AnyEndsWith` | src/utils/id.ts:39 | True iff the filename ends with some listed extension. |
| `Id.BuildFilter` | src/utils/id.ts:37-40 | The returned filter accepts a filename iff the glob filter accepts it and it ends with some configured extension. |
| `Id.BuildIdParser` | src/utils/id.ts:42-45 | The parser captures the normalised root, `path.normalize`, and the filter built from the include/exclude patterns and the extension list. |
| `Id.ParseId` | src/utils/id.ts:47-53 | A request is returned iff the filter accepts the text before the first `?`. The request keeps the id and the timestamp, and its filename is that text. A sub-resource needs a `?` in the id. |
| `Id.ParseIdSpec` | src/utils/id.ts:47-53 | The parser returns nothing iff the filter rejects the text before the first `?`. Otherwise the request has the input id, the normalised root and the given timestamp. Its filename is that text and its normalised filename is `stripRoot(normalize(filename), root)`. Its sub-resource is parsed from the text between the first and second `?`, and is absent when there is no `?`. |
| `Cache.Extension` | src/utils/cache.ts:96 | The extension is `types[mime]` when that is non-empty. Otherwise it is `.js` for script nodes and `.css` for stylesheet nodes. It is never empty. |
| `Cache.SubResourceUrl` | src/utils/cache.ts:108-110 | The URL starts with `<normalizedFilename>?<type>=` and ends with the base name, with nothing in between. `Endorphin.SubResourceUrlParses` states that it parses back. |
| `Cache.IsRemoteUrl` | src/utils/cache.ts:137-139 | A remote URL has `:` as its second character and something other than `:` before it. A URL starting with `.` or `/` is never remote. |
| `Cache.LongSchemeIsNotRemote` | src/utils/cache.ts:137-139 | A URL whose scheme has two or more characters (such as `https:`) is not remote by this test. |
| `Cache.RemoteUrlExamples` | src/utils/cache.ts:137-139 | `a:b` and `-:x` are remote. `https://…`, `C:/…` and `./a:b` are not. |
| `Cache.ExternalRefsMember` | src/utils/cache.ts:116-132 | An external reference is in the list iff some node of that list has a truthy, non-remote URL that resolves against the directory to it. |
| `Cache.ExternalRefsAppend` | src/utils/cache.ts:116-132 | The references keep node order: the list for `a + b` is the list for `a` followed by the list for `b`. |
| `Cache.GetExternal` | src/utils/cache.ts:112-135 | The two loops return the script references followed by the stylesheet references. Each has the path `resolve(dirname(parent), url)`. |
| `Cache.RelativeUrlSpec` | src/utils/cache.ts:34-38 | A truthy URL that already starts with `./` or `..` is unchanged. Any other truthy URL gets `./` put in front. Either way the result starts with `./` or `..` and is never remote. A falsy URL is kept. |
| `Cache.RelativizedIdempotent` | src/utils/cache.ts:34-38 | Rewriting the stylesheet URLs a second time changes nothing. |
| `Cache.RelativizeStylesheetUrls` | src/utils/cache.ts:34-38 | In place, each stylesheet's URL is replaced by its rewritten form and no other field changes. |
| `Cache.Externalized` | src/utils/cache.ts:93-103 | A node with content now has the URL `<normalizedFilename>?<type>=__<i><ext>`, no content and no transformed text, and keeps its type and MIME type. Every other node is unchanged. |
| `Cache.InlineEntriesKeys` | src/utils/cache.ts:93-99 | The keys of the map are exactly the keys `__<i><ext>` of the nodes that have truthy content, where `i` is the position in the whole list. |
| `Cache.InlineEntriesValue` | src/utils/cache.ts:99 | A node's key maps to `transformed \|\| content` unless a later node with content has the same key. |
| `Cache.InlineKeyInjective` | src/utils/cache.ts:97 | Two keys `__<i><ext>` are equal only for the same index and extension, provided neither extension starts with a digit. |
| `Cache.InlineResourcesSpec` | src/utils/cache.ts:91-106 | When no extension starts with a digit, the map has one key per node with content, holding that node's `transformed \|\| content`, and no other key. |
| `Cache.InlineEntriesIgnoreUrls` | src/utils/cache.ts:34-46 | The inline map does not depend on URLs, so the stylesheet rewrite before it does not change it. |
| `Cache.ExternalizedIsFinal` | src/utils/cache.ts:100-101 | After externalization no node has content: a second pass returns an empty map and leaves the nodes unchanged. |
| `Cache.ExternalizeInlineResources` | src/utils/cache.ts:91-106 | The loop returns the inline map of the original nodes and leaves the array holding the externalized nodes. |
| `Cache.ParsedTemplate.constructor` | src/utils/cache.ts:112-114 | A template's script and stylesheet lists are two new, distinct arrays holding the given nodes. |
| `Cache.EndorphinCache.constructor` | src/utils/cache.ts:26-28 | A new cache is empty and keeps the `types` option. |
| `Cache.EndorphinCache.Add` | src/utils/cache.ts:30-47 | The stylesheets are first made relative, then externalized; the scripts are externalized. The cache equals the old cache with only the normalised filename's entry replaced. That entry holds the template, the scope, the external list of the original URLs and the inline maps of the original nodes. |
| `Cache.EndorphinCache.Get` | src/utils/cache.ts:49-51 | An entry is returned iff one is stored under the id, and it is the stored entry. |
| `Cache.EndorphinCache.LoadStyle` | src/utils/cache.ts:53-60 | Returns the stored text iff an entry exists and its style map has the key. Otherwise it returns the file read of `resolve(id, file)`. |
| `Cache.EndorphinCache.LoadScript` | src/utils/cache.ts:62-69 | The same, against the script map only. |
| `Cache.EndorphinCache.GetScope` | src/utils/cache.ts:71-76 | A scope is returned iff `get` finds an entry, and it is that entry's scope. |
| `Cache.EndorphinCache.Resolve` | src/utils/cache.ts:77-84 | A file starting with `/` loses that first `/` and is then resolved against `dirname(id)`. Any other file is resolved as it is. |
| `Cache.EndorphinCache.LoadExternal` | src/utils/cache.ts:86-88 | Returns the text of the resolved file, or the resolved path when the read fails. |
| `Cache.ResolveStripsOneSlash` | src/utils/cache.ts:77-84 | `resolve(id, "/" + f)` resolves exactly `f` against `dirname(id)`, even when `f` starts with `/`. A file without a leading `/` is resolved as it is. |
| `Endorphin.SubResourceUrlParses` | src/utils/cache.ts:108-110 | A URL `<normalizedFilename>?<type>=<key>` parses to a request whose filename is the normalised filename and whose sub-resource is `(type, key)`. This needs no `?` in the name, no `?` or `=` in the key, and a filter that accepts the name. |
| `Endorphin.ExternalizedUrlParses` | src/utils/cache.ts:100 | The URL written into an externalized node parses back to that node's type and key. |
| `Endorphin.InlineStyleRoundTrip` | src/utils/cache.ts:53-57 | Once the entry's style map is the one built from the nodes, loading the parsed URL of an inline stylesheet node returns that node's text. |
| `Endorphin.InlineScriptRoundTrip` | src/utils/cache.ts:62-66 | The same for an inline script node, through the script map. |
| `Endorphin.AddServesInlineStyle` | src/utils/cache.ts:30-57 | After `add`, the URL now held by a stylesheet node that had inline text parses to a `style` sub-resource. `loadStyle` of that sub-resource, in the new cache, returns the text the node had before `add`. |
| `Endorphin.InlineStyleScenario` | src/utils/cache.ts:91-110 | For `<style>.x{color:red}</style>` in `a.html`: the style map is `{"__0.css": ".x{color:red}"}` and `external` is empty. The node's URL is `a.html?style=__0.css`. `loadStyle` of the file parsed from that URL, on the returned cache, gives `.x{color:red}`. |
| `Endorphin.ExternalStyleScenario` | src/utils/cache.ts:112-135 | For `<style src="b.css">`: `external` lists `resolve(dirname("a.html"), "b.css")` and no inline style is stored. The node's URL becomes `./b.css`. `loadStyle("a.html", "./b.css")` on the returned cache equals the file read. |
| `Endorphin.RecompileReplaces` | src/utils/cache.ts:40-46 | After a second `add` for the same file, `loadStyle` of a key only the first template produced equals the file read. The scope and the template are the second ones. Before the second `add`, that key held the first template's inline text. |

## Left out

- `src/index.ts` is not part of this model. It holds the Vite hooks, the `?endorphin` marker, `emitFile`, the direct `fs.readFileSync` of templates, the PostCSS wiring and the `scopeLookup` map.
- `src/utils/compile.ts` is not part of this model. It calls the external compiler's `parse`, `generate` and `scopeCSS`, and appends `import "<url>";` for each stylesheet URL.
- `src/utils/options.ts` and `rollup.config.js` are not part of this model. They hold option merging, warnings, `process.cwd()` and build configuration.
- `path.normalize`, `path.dirname`, `path.resolve`, `fs.readFileSync` and `createFilter` stay uninterpreted parameters. They are part of the host.
- `Date.now()` is not modelled: the timestamp is always a parameter.
- A parsed template is reduced to its two node lists. A node holds only the fields the cache touches.
- Nodes are values in the arrays, so aliasing is not modelled. A node object shared by both lists, or held by another collaborator, is out of scope. An `add` whose two lists are the same array is excluded by a precondition.
- JavaScript `Map` iteration order is not modelled; the inline maps are Dafny maps. The declared `string | null` value type is not modelled either: only strings are ever stored.
- Cache.Extension: a `types` lookup that hits an inherited object property (such as `toString`) is not modelled. The MIME type is always a string.
- Cache.InlineResourcesSpec: stated only for extensions that do not start with a digit. For other extensions different nodes can share a key and the later one wins; `Cache.InlineEntriesValue` states that general case.
- Endorphin.InlineStyleRoundTrip: stated only for configured extensions without `?` or `=` and a normalised filename without `?`, because otherwise the synthetic URL does not split back into the same parts. It also needs no extension starting with a digit, because otherwise a later node with a colliding key is served instead. And it needs a filter that accepts the root-stripped name, because otherwise the plugin does not own the synthetic URL.
- Endorphin.InlineScriptRoundTrip: stated under the same four conditions as the style round trip.
- Endorphin.AddServesInlineStyle: stated under the same conditions as `Endorphin.InlineStyleRoundTrip`, for a node of type `ENDStylesheet`. A script node placed in the stylesheet list would get a `script` URL and be served from the script map.
- Endorphin.RecompileReplaces: `before` is stated as the text stored by the first `add`, not as a `loadStyle` call. Such a call reads the cache between the two `add`s, and a contract can only name the state before the method or after it.
- Endorphin.InlineStyleScenario: the request is written out by hand (normalised filename `a.html`) rather than produced by the parser, because `path.normalize` is abstract.
