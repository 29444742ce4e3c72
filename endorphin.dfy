/**
 * How the parser and the cache fit together: the synthetic URL that
 * `Cache.EndorphinCache.Add` writes into a node parses back, through
 * `Id.ParseId`, to a sub-resource request whose filename is the cache key
 * and whose file is the inline key, so loading it serves the moved text.
 * Also the three template scenarios of the plugin, expressed with the
 * verified operations.
 */
module Endorphin {
  import opened Wrappers
  import opened JsString
  import opened Host
  import opened Types
  import opened Id
  import opened Cache

  /** Configured extensions contain neither `?` nor `=`, so synthetic URLs split where they were joined. */
  predicate ExtensionsUrlSafe(types: map<string, string>) {
    forall m :: m in types ==> '?' !in types[m] && '=' !in types[m]
  }

  lemma InlineKeyUrlSafe(nodes: seq<Node>, types: map<string, string>, i: nat)
    requires i < |nodes| && ExtensionsUrlSafe(types)
    ensures '?' !in KeyAt(nodes, types, i) && '=' !in KeyAt(nodes, types, i) && KeyAt(nodes, types, i) != ""
  {
    var digits, ext := NumberToString(i), Extension(nodes[i], types);
    assert KeyAt(nodes, types, i) == "__" + digits + ext;
    assert '?' !in digits && '=' !in digits by {
      forall k | 0 <= k < |digits| ensures digits[k] != '?' && digits[k] != '=' {
        assert IsDigit(digits[k]);
      }
    }
  }

  /**
   * A sub-resource URL parses back to a request for the same normalised file
   * with the sub-resource `type=key`, when the file name has no `?`, the key
   * neither `?` nor `=`, and the filter accepts the file name.
   */
  lemma SubResourceUrlParses(parser: IdParser, req: EndorphinRequest, t: EndorphinResourceType, key: string, timestamp: int)
    requires '?' !in req.normalizedFilename && '?' !in key && '=' !in key && key != ""
    requires parser.filter(req.normalizedFilename)
    ensures var url := SubResourceUrl(req, t, key);
      ParseId(parser, url, timestamp) == Some(EndorphinRequest(
        url, parser.normalizedRoot, req.normalizedFilename,
        StripRoot(parser.normalizePath(req.normalizedFilename), parser.normalizedRoot),
        Some(ComponentSubresource(t.Name(), key)), timestamp))
  {
    var name, n := t.Name(), req.normalizedFilename;
    var query := name + ['='] + key;
    var url := SubResourceUrl(req, t, key);
    assert '?' !in name && '=' !in name && '?' !in query;
    assert url == n + ['?'] + query;
    BeforeAfterAtSeparator(n, '?', query);
    assert Before(query, '?') == query;
    ParseIdSpec(parser, url, timestamp);
    ParseSubResourceUncheckedType(name, key);
  }

  /** The URL an externalized node now carries parses back to its own key and type. */
  lemma ExternalizedUrlParses(
    parser: IdParser, req: EndorphinRequest, nodes: seq<Node>, types: map<string, string>, i: nat, timestamp: int)
    requires i < |nodes| && Truthy(nodes[i].content) && ExtensionsUrlSafe(types)
    requires '?' !in req.normalizedFilename && parser.filter(req.normalizedFilename)
    ensures var r := ParseId(parser, Externalized(nodes, req, types)[i].url.value, timestamp);
      && r.Some? && r.value.filename == req.normalizedFilename
      && r.value.sub == Some(ComponentSubresource(NodeType(nodes[i]).Name(), KeyAt(nodes, types, i)))
  {
    InlineKeyUrlSafe(nodes, types, i);
    SubResourceUrlParses(parser, req, NodeType(nodes[i]), KeyAt(nodes, types, i), timestamp);
  }

  /**
   * Round trip of an inline style: once the cache holds the style map built
   * from `nodes`, loading the URL written into the node serves the node's text
   * (`transformed`, else `content`).
   */
  lemma InlineStyleRoundTrip(
    c: EndorphinCache, parser: IdParser, req: EndorphinRequest, nodes: seq<Node>, i: nat,
    path: PathOps, fs: FileReader, timestamp: int)
    requires req.normalizedFilename in c.cache
    requires c.cache[req.normalizedFilename].styles == InlineResources(nodes, c.types)
    requires ExtensionsStartNonDigit(c.types) && ExtensionsUrlSafe(c.types)
    requires '?' !in req.normalizedFilename && parser.filter(req.normalizedFilename)
    requires i < |nodes| && Truthy(nodes[i].content) && nodes[i].kind == ENDStylesheet
    ensures var r := ParseId(parser, Externalized(nodes, req, c.types)[i].url.value, timestamp);
      && r.Some? && r.value.sub == Some(ComponentSubresource("style", KeyAt(nodes, c.types, i)))
      && c.LoadStyle(r.value.filename, r.value.sub.value.file, path, fs) == Text(InlineValue(nodes[i]))
  {
    ExternalizedUrlParses(parser, req, nodes, c.types, i, timestamp);
    InlineResourcesSpec(nodes, c.types);
  }

  /** The same round trip for an inline script, through the script map. */
  lemma InlineScriptRoundTrip(
    c: EndorphinCache, parser: IdParser, req: EndorphinRequest, nodes: seq<Node>, i: nat,
    path: PathOps, fs: FileReader, timestamp: int)
    requires req.normalizedFilename in c.cache
    requires c.cache[req.normalizedFilename].scripts == InlineResources(nodes, c.types)
    requires ExtensionsStartNonDigit(c.types) && ExtensionsUrlSafe(c.types)
    requires '?' !in req.normalizedFilename && parser.filter(req.normalizedFilename)
    requires i < |nodes| && Truthy(nodes[i].content) && nodes[i].kind == ENDScript
    ensures var r := ParseId(parser, Externalized(nodes, req, c.types)[i].url.value, timestamp);
      && r.Some? && r.value.sub == Some(ComponentSubresource("script", KeyAt(nodes, c.types, i)))
      && c.LoadScript(r.value.filename, r.value.sub.value.file, path, fs) == Text(InlineValue(nodes[i]))
  {
    ExternalizedUrlParses(parser, req, nodes, c.types, i, timestamp);
    InlineResourcesSpec(nodes, c.types);
  }

  /**
   * The round trip across `add` itself: after adding a template, the URL now
   * held by a stylesheet node that had inline text parses to a style request,
   * and loading it serves the text the node had before `add`.
   */
  method AddServesInlineStyle(
    c: EndorphinCache, parser: IdParser, req: EndorphinRequest, template: ParsedTemplate, scope: string,
    i: nat, path: PathOps, fs: FileReader, timestamp: int)
    returns (loaded: LoadResult)
    requires template.scripts != template.stylesheets
    requires ExtensionsStartNonDigit(c.types) && ExtensionsUrlSafe(c.types)
    requires '?' !in req.normalizedFilename && parser.filter(req.normalizedFilename)
    requires i < template.stylesheets.Length
    requires Truthy(template.stylesheets[i].content) && template.stylesheets[i].kind == ENDStylesheet
    modifies c, template.scripts, template.stylesheets
    ensures template.stylesheets[i].url.Some?
    ensures var r := ParseId(parser, template.stylesheets[i].url.value, timestamp);
      && r.Some? && r.value.sub.Some? && r.value.sub.value.kind == "style"
      && loaded == c.LoadStyle(r.value.filename, r.value.sub.value.file, path, fs)
    ensures loaded == Text(InlineValue(old(template.stylesheets[i])))
  {
    ghost var sheets := template.stylesheets[..];
    c.Add(req, template, scope, path);
    var relative := Relativized(sheets);
    InlineEntriesIgnoreUrls(sheets, relative, c.types, |sheets|);
    InlineStyleRoundTrip(c, parser, req, relative, i, path, fs, timestamp);
    var r := ParseId(parser, template.stylesheets[i].url.value, timestamp);
    loaded := c.LoadStyle(r.value.filename, r.value.sub.value.file, path, fs);
  }

  /** The values the first scenario relies on, computed once. */
  lemma InlineStyleFacts(style: Node, req: EndorphinRequest, path: PathOps)
    requires style == Node(ENDStylesheet, None, Some(".x{color:red}"), None, "text/css")
    requires req.normalizedFilename == "a.html"
    ensures KeyAt([style], map[], 0) == "__0.css"
    ensures InlineResources([style], map[]) == map["__0.css" := ".x{color:red}"]
    ensures InlineResources([], map[]) == map[]
    ensures ExternalResources(path, "a.html", [], [style]) == []
    ensures Externalized(Relativized([style]), req, map[])[0].url == Some("a.html?style=__0.css")
  {
    assert NumberToString(0) == "0";
    assert [style][..0] == [];
    assert InlineEntries([style], map[], 0) == map[];
    assert InlineEntries([style], map[], 1) == map[][KeyAt([style], map[], 0) := InlineValue(style)];
    assert ExternalRefs(path, path.dirname("a.html"), [style], Style)
      == ExternalRefs(path, path.dirname("a.html"), [], Style) + [];
    var sheets := Relativized([style]);
    assert sheets[0] == style;
    assert sheets == [style];
    InlineStyleUrl(req);
  }

  /** The synthetic URL of the first scenario's style. */
  lemma InlineStyleUrl(req: EndorphinRequest)
    requires req.normalizedFilename == "a.html"
    ensures SubResourceUrl(req, Style, "__0.css") == "a.html?style=__0.css"
  {
    assert Style.Name() == "style";
    assert "a.html" + "?" + "style" + "=" + "__0.css" == "a.html?style=__0.css";
  }

  /**
   * `a.html` = `<style>.x{color:red}</style>…`: the entry has one inline style
   * `__0.css`, no external file, the node points at `a.html?style=__0.css`, and
   * loading that id serves the style text.
   */
  method InlineStyleScenario(parser: IdParser, path: PathOps, fs: FileReader)
    returns (c: EndorphinCache, entry: CacheEntry, url: string, loaded: LoadResult)
    requires parser.filter("a.html")
    ensures c.Get("a.html") == Some(entry)
    ensures ParseId(parser, url, 1).Some? && ParseId(parser, url, 1).value.sub.Some?
    ensures loaded == c.LoadStyle("a.html", ParseId(parser, url, 1).value.sub.value.file, path, fs)
    ensures entry.styles == map["__0.css" := ".x{color:red}"] && entry.scripts == map[]
    ensures entry.external == [] && entry.scope == "e1"
    ensures url == "a.html?style=__0.css"
    ensures loaded == Text(".x{color:red}")
  {
    c := new EndorphinCache(map[]);
    var style := Node(ENDStylesheet, None, Some(".x{color:red}"), None, "text/css");
    var template := new ParsedTemplate([], [style]);
    var req := EndorphinRequest("a.html", "/app", "a.html", "a.html", None, 0);
    c.Add(req, template, "e1", path);
    InlineStyleFacts(style, req, path);
    entry := c.Get("a.html").value;
    url := template.stylesheets[0].url.value;
    InlineStyleParse(parser, req);
    var r := ParseId(parser, url, 1);
    loaded := c.LoadStyle(r.value.filename, r.value.sub.value.file, path, fs);
  }

  /** The first scenario's synthetic URL parses back to `a.html` with the style `__0.css`. */
  lemma InlineStyleParse(parser: IdParser, req: EndorphinRequest)
    requires parser.filter("a.html") && req.normalizedFilename == "a.html"
    ensures var r := ParseId(parser, "a.html?style=__0.css", 1);
      r.Some? && r.value.filename == "a.html" && r.value.sub == Some(ComponentSubresource("style", "__0.css"))
  {
    assert '?' !in "__0.css" && '=' !in "__0.css";
    SubResourceUrlParses(parser, req, Style, "__0.css", 1);
    InlineStyleUrl(req);
  }

  /** The values the second scenario relies on, computed once. */
  lemma ExternalStyleFacts(style: Node, req: EndorphinRequest, path: PathOps)
    requires style == Node(ENDStylesheet, Some("b.css"), None, None, "text/css")
    ensures ExternalResources(path, "a.html", [], [style])
      == [ExternalResource(Style, path.resolve(path.dirname("a.html"), "b.css"))]
    ensures InlineResources([style], map[]) == map[] && InlineResources([], map[]) == map[]
    ensures Externalized(Relativized([style]), req, map[])[0].url == Some("./b.css")
  {
    var dir := path.dirname("a.html");
    assert [style][..0] == [];
    assert !IsRemoteUrl("b.css");
    assert ExternalRefs(path, dir, [style], Style)
      == ExternalRefs(path, dir, [], Style) + [ExternalResource(Style, path.resolve(dir, "b.css"))];
    assert InlineEntries([style], map[], 1) == InlineEntries([style], map[], 0);
    assert !StartsWith("b.css", "./") && !StartsWith("b.css", "..");
    assert "./" + "b.css" == "./b.css";
    var sheets := Relativized([style]);
    assert sheets[0].url == Some("./b.css");
  }

  /**
   * A template with `<style src="b.css">`: the entry lists `b.css` resolved
   * against the template's directory as an external style, stores no inline
   * style, the node now says `./b.css`, and loading that file from the entry
   * falls through to the file read.
   */
  method ExternalStyleScenario(path: PathOps, fs: FileReader)
    returns (c: EndorphinCache, entry: CacheEntry, nodeUrl: Option<string>, loaded: LoadResult)
    ensures c.Get("a.html") == Some(entry)
    ensures loaded == c.LoadStyle("a.html", "./b.css", path, fs)
    ensures entry.external == [ExternalResource(Style, path.resolve(path.dirname("a.html"), "b.css"))]
    ensures entry.styles == map[] && entry.scripts == map[]
    ensures nodeUrl == Some("./b.css")
    ensures loaded == EndorphinCache.LoadExternal("a.html", "./b.css", path, fs)
  {
    c := new EndorphinCache(map[]);
    var style := Node(ENDStylesheet, Some("b.css"), None, None, "text/css");
    var template := new ParsedTemplate([], [style]);
    var req := EndorphinRequest("a.html", "/app", "a.html", "a.html", None, 0);
    c.Add(req, template, "e1", path);
    ExternalStyleFacts(style, req, path);
    entry := c.Get("a.html").value;
    nodeUrl := template.stylesheets[0].url;
    loaded := c.LoadStyle("a.html", "./b.css", path, fs);
  }

  /**
   * Compiling the same file twice replaces its entry: a key that only the
   * first compile produced is found after the first `add` and falls through
   * to the file read after the second; the scope is the second one.
   */
  method RecompileReplaces(
    c: EndorphinCache, req: EndorphinRequest, first: ParsedTemplate, second: ParsedTemplate,
    firstScope: string, secondScope: string, key: string, path: PathOps, fs: FileReader)
    returns (before: LoadResult, after: LoadResult)
    requires first.scripts != first.stylesheets && second.scripts != second.stylesheets
    requires {first.scripts, first.stylesheets} !! {second.scripts, second.stylesheets}
    requires key in InlineResources(first.stylesheets[..], c.types)
    requires key !in InlineResources(second.stylesheets[..], c.types)
    modifies c, first.scripts, first.stylesheets, second.scripts, second.stylesheets
    ensures before == Text(InlineResources(old(first.stylesheets[..]), c.types)[key])
    ensures after == c.LoadStyle(req.normalizedFilename, key, path, fs)
    ensures after == EndorphinCache.LoadExternal(req.normalizedFilename, key, path, fs)
    ensures c.GetScope(req.normalizedFilename) == Some(secondScope)
    ensures c.Get(req.normalizedFilename).value.template == second
  {
    c.Add(req, first, firstScope, path);
    before := c.LoadStyle(req.normalizedFilename, key, path, fs);
    c.Add(req, second, secondScope, path);
    after := c.LoadStyle(req.normalizedFilename, key, path, fs);
  }
}
