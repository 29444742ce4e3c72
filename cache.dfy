/**
 * The resource cache of src/utils/cache.ts. `EndorphinCache.Add` takes a
 * parsed template, whose script and stylesheet node lists are arrays it
 * rewrites in place, and stores under the request's normalised filename an
 * entry with the scope token, the list of on-disk references and the inline
 * texts it moved out of the nodes. The lookups serve those texts, or fall
 * back to reading a file.
 *
 * Each in-place pass is a method proved against a function on the node
 * sequence (`ExternalResources`, `Relativized`, `Externalized`,
 * `InlineResources`); the lemmas below state what those functions mean.
 */
module Cache {
  import opened Wrappers
  import opened JsString
  import opened Host
  import opened Types

  /** The AST node types of the two lists: `ENDScript` and `ENDStylesheet`. */
  datatype NodeKind = ENDScript | ENDStylesheet

  /** A script or stylesheet node: only the fields the cache reads or writes. */
  datatype Node = Node(
    kind: NodeKind,
    url: Option<string>,
    content: Option<string>,
    transformed: Option<string>,
    mime: string)

  /** JavaScript truthiness of an optional string: present and not empty. */
  predicate Truthy(s: Option<string>) {
    s.Some? && s.value != ""
  }

  /** `ExternalResource`: a file the template refers to by URL. */
  datatype ExternalResource = ExternalResource(kind: EndorphinResourceType, path: string)

  /** `defaultExt`. */
  function DefaultExt(t: EndorphinResourceType): string {
    match t
    case Script => ".js"
    case Style => ".css"
  }

  /** The resource type of a node, from its node type. */
  function NodeType(n: Node): EndorphinResourceType {
    if n.kind == ENDScript then Script else Style
  }

  /** `options.types[node.mime] || defaultExt[type]`. */
  function Extension(n: Node, types: map<string, string>): (ext: string)
    ensures ext != ""
    ensures n.mime in types && types[n.mime] != "" ==> ext == types[n.mime]
    ensures !(n.mime in types && types[n.mime] != "") ==> ext == DefaultExt(NodeType(n))
  {
    if n.mime in types && types[n.mime] != "" then types[n.mime] else DefaultExt(NodeType(n))
  }

  /** The synthetic key `__<index><ext>` of an inline node. */
  function InlineKey(index: nat, ext: string): string {
    "__" + NumberToString(index) + ext
  }

  /** `subResourceUrl`: `<normalizedFilename>?<type>=<baseName>`. */
  function SubResourceUrl(req: EndorphinRequest, t: EndorphinResourceType, baseName: string): (r: string)
    ensures StartsWith(r, req.normalizedFilename + "?" + t.Name() + "=") && EndsWith(r, baseName)
    ensures |r| == |req.normalizedFilename| + |t.Name()| + |baseName| + 2
  {
    var prefix := req.normalizedFilename + "?" + t.Name() + "=";
    assert (prefix + baseName)[..|prefix|] == prefix;
    prefix + baseName
  }

  /** `isRemoteUrl`: the pattern `/^[a-z+-]:/`, a scheme of one character from `a`-`z`, `+` or `-`. */
  predicate IsRemoteUrl(url: string)
    ensures IsRemoteUrl(url) ==> |url| >= 2 && url[1] == ':' && url[0] != ':'
    ensures StartsWith(url, ".") || StartsWith(url, "/") ==> !IsRemoteUrl(url)
  {
    |url| >= 2 && ('a' <= url[0] <= 'z' || url[0] == '+' || url[0] == '-') && url[1] == ':'
  }

  /** A scheme of two or more characters, `https:` among them, is not remote by that pattern. */
  lemma LongSchemeIsNotRemote(scheme: string, rest: string)
    requires |scheme| >= 2 && ':' !in scheme
    ensures !IsRemoteUrl(scheme + ":" + rest)
  {
    assert (scheme + ":" + rest)[1] == scheme[1];
  }

  lemma RemoteUrlExamples()
    ensures IsRemoteUrl("a:b") && IsRemoteUrl("-:x")
    ensures !IsRemoteUrl("https://cdn.example/x.css") && !IsRemoteUrl("C:/x.css") && !IsRemoteUrl("./a:b")
  {
    LongSchemeIsNotRemote("https", "//cdn.example/x.css");
  }

  /** The condition of `getExternal`: a truthy URL that is not remote. */
  predicate IsLocalRef(url: Option<string>) {
    Truthy(url) && !IsRemoteUrl(url.value)
  }

  /** One loop of `getExternal`: each local URL of `nodes`, in order, resolved against `dir`. */
  function ExternalRefs(path: PathOps, dir: string, nodes: seq<Node>, t: EndorphinResourceType): seq<ExternalResource>
  {
    if nodes == [] then []
    else
      var last := nodes[|nodes| - 1];
      ExternalRefs(path, dir, nodes[..|nodes| - 1], t)
        + (if IsLocalRef(last.url) then [ExternalResource(t, path.resolve(dir, last.url.value))] else [])
  }

  /** What `getExternal(parent, template)` returns: the scripts' references, then the stylesheets'. */
  function ExternalResources(path: PathOps, parent: string, scripts: seq<Node>, stylesheets: seq<Node>): seq<ExternalResource>
  {
    var dir := path.dirname(parent);
    ExternalRefs(path, dir, scripts, Script) + ExternalRefs(path, dir, stylesheets, Style)
  }

  /** The references are exactly the resolved local URLs of the nodes. */
  lemma {:induction false} ExternalRefsMember(path: PathOps, dir: string, nodes: seq<Node>, t: EndorphinResourceType, x: ExternalResource)
    ensures x in ExternalRefs(path, dir, nodes, t) <==>
      exists i :: 0 <= i < |nodes| && IsLocalRef(nodes[i].url)
                  && x == ExternalResource(t, path.resolve(dir, nodes[i].url.value))
    decreases |nodes|
  {
    if nodes != [] {
      var init := nodes[..|nodes| - 1];
      ExternalRefsMember(path, dir, init, t, x);
      assert forall i :: 0 <= i < |init| ==> init[i] == nodes[i];
    }
  }

  /** The references keep the order of the nodes: the list of a concatenation is the concatenation of the lists. */
  lemma {:induction false} ExternalRefsAppend(path: PathOps, dir: string, a: seq<Node>, b: seq<Node>, t: EndorphinResourceType)
    ensures ExternalRefs(path, dir, a + b, t) == ExternalRefs(path, dir, a, t) + ExternalRefs(path, dir, b, t)
    decreases |b|
  {
    if b == [] {
      assert a + b == a;
    } else {
      var b' := b[..|b| - 1];
      assert (a + b)[..|a + b| - 1] == a + b';
      assert (a + b)[|a + b| - 1] == b[|b| - 1];
      ExternalRefsAppend(path, dir, a, b', t);
    }
  }

  /** The stylesheet rewrite of `add` for one URL: prefix `./` unless it starts with `./` or `..`. */
  function RelativeUrl(url: Option<string>): Option<string>
  {
    if Truthy(url) && !StartsWith(url.value, "./") && !StartsWith(url.value, "..") then
      Some("./" + url.value)
    else
      url
  }

  /** The stylesheet rewrite of `add` over a whole list: only the URLs change. */
  function Relativized(nodes: seq<Node>): (r: seq<Node>)
    ensures |r| == |nodes|
    ensures forall i :: 0 <= i < |nodes| ==> r[i] == nodes[i].(url := RelativeUrl(nodes[i].url))
  {
    seq(|nodes|, i requires 0 <= i < |nodes| => nodes[i].(url := RelativeUrl(nodes[i].url)))
  }

  /**
   * Every truthy URL comes out starting with `./` or `..`: one that already
   * starts with either is unchanged, any other gets `./` in front; after the
   * rewrite no URL is remote; falsy URLs are kept.
   */
  lemma RelativeUrlSpec(url: Option<string>)
    ensures Truthy(url) ==> (
      && Truthy(RelativeUrl(url))
      && (StartsWith(RelativeUrl(url).value, "./") || StartsWith(RelativeUrl(url).value, ".."))
      && (RelativeUrl(url) == url || RelativeUrl(url) == Some("./" + url.value))
      && !IsRemoteUrl(RelativeUrl(url).value))
    ensures Truthy(url) && !StartsWith(url.value, "./") && !StartsWith(url.value, "..") ==>
      RelativeUrl(url) == Some("./" + url.value)
    ensures Truthy(url) && (StartsWith(url.value, "./") || StartsWith(url.value, "..")) ==>
      RelativeUrl(url) == url
    ensures !Truthy(url) ==> RelativeUrl(url) == url
  {
    if Truthy(url) {
      var u := url.value;
      if !StartsWith(u, "./") && !StartsWith(u, "..") {
        assert ("./" + u)[..2] == "./";
      } else {
        assert u[0] == '.';
      }
    }
  }

  /** Rewriting twice is rewriting once. */
  lemma RelativizedIdempotent(nodes: seq<Node>)
    ensures Relativized(Relativized(nodes)) == Relativized(nodes)
  {
    forall i | 0 <= i < |nodes|
      ensures RelativeUrl(RelativeUrl(nodes[i].url)) == RelativeUrl(nodes[i].url)
    {
      RelativeUrlSpec(nodes[i].url);
    }
  }

  /** `node.transformed || node.content`. */
  function InlineValue(n: Node): string
    requires Truthy(n.content)
  {
    if Truthy(n.transformed) then n.transformed.value else n.content.value
  }

  /** The key the node at `index` gets when it is externalized. */
  function KeyAt(nodes: seq<Node>, types: map<string, string>, index: nat): string
    requires index < |nodes|
  {
    InlineKey(index, Extension(nodes[index], types))
  }

  /** One step of `externalizeInlineResources` on a node at `index`. */
  function ExternalizedNode(n: Node, index: nat, req: EndorphinRequest, types: map<string, string>): Node
  {
    if Truthy(n.content) then
      n.(url := Some(SubResourceUrl(req, NodeType(n), InlineKey(index, Extension(n, types)))),
         content := None, transformed := None)
    else
      n
  }

  /**
   * The node list after `externalizeInlineResources`: a node with content now
   * points at its synthetic URL and has neither content nor transformed text;
   * every other node is as it was.
   */
  function Externalized(nodes: seq<Node>, req: EndorphinRequest, types: map<string, string>): (r: seq<Node>)
    ensures |r| == |nodes|
    ensures forall i :: 0 <= i < |nodes| && Truthy(nodes[i].content) ==>
      && r[i].url == Some(SubResourceUrl(req, NodeType(nodes[i]), KeyAt(nodes, types, i)))
      && r[i].content == None && r[i].transformed == None
      && r[i].kind == nodes[i].kind && r[i].mime == nodes[i].mime
    ensures forall i :: 0 <= i < |nodes| && !Truthy(nodes[i].content) ==> r[i] == nodes[i]
  {
    seq(|nodes|, i requires 0 <= i < |nodes| => ExternalizedNode(nodes[i], i, req, types))
  }

  /** The map `externalizeInlineResources` has built after the first `n` nodes (a later key overwrites). */
  function InlineEntries(nodes: seq<Node>, types: map<string, string>, n: nat): map<string, string>
    requires n <= |nodes|
  {
    if n == 0 then map[]
    else
      var m := InlineEntries(nodes, types, n - 1);
      var node := nodes[n - 1];
      if Truthy(node.content) then m[KeyAt(nodes, types, n - 1) := InlineValue(node)] else m
  }

  /** The map `externalizeInlineResources` returns. */
  function InlineResources(nodes: seq<Node>, types: map<string, string>): map<string, string>
  {
    InlineEntries(nodes, types, |nodes|)
  }

  /** The keys are exactly the keys of the nodes that have content. */
  lemma {:induction false} InlineEntriesKeys(nodes: seq<Node>, types: map<string, string>, n: nat, k: string)
    requires n <= |nodes|
    ensures k in InlineEntries(nodes, types, n) <==>
      exists i :: 0 <= i < n && Truthy(nodes[i].content) && k == KeyAt(nodes, types, i)
  {
    if n > 0 {
      InlineEntriesKeys(nodes, types, n - 1, k);
    }
  }

  /** A node's key holds its text unless a later node with content has the same key. */
  lemma {:induction false} InlineEntriesValue(nodes: seq<Node>, types: map<string, string>, n: nat, i: nat)
    requires i < n <= |nodes| && Truthy(nodes[i].content)
    requires forall j :: i < j < n && Truthy(nodes[j].content) ==> KeyAt(nodes, types, j) != KeyAt(nodes, types, i)
    ensures KeyAt(nodes, types, i) in InlineEntries(nodes, types, n)
    ensures InlineEntries(nodes, types, n)[KeyAt(nodes, types, i)] == InlineValue(nodes[i])
  {
    if i < n - 1 {
      InlineEntriesValue(nodes, types, n - 1, i);
    }
  }

  /** The length of the run of digits `s` starts with. */
  function DigitPrefix(s: string): nat
  {
    if s == [] || !IsDigit(s[0]) then 0 else 1 + DigitPrefix(s[1..])
  }

  lemma {:induction false} DigitPrefixLength(d: string, e: string)
    requires forall k :: 0 <= k < |d| ==> IsDigit(d[k])
    requires |e| > 0 && !IsDigit(e[0])
    ensures DigitPrefix(d + e) == |d|
  {
    if d != [] {
      assert (d + e)[1..] == d[1..] + e;
      DigitPrefixLength(d[1..], e);
    }
  }

  /** Two synthetic keys are equal only for the same index and extension, when extensions do not start with a digit. */
  lemma InlineKeyInjective(i: nat, e: string, j: nat, f: string)
    requires |e| > 0 && |f| > 0 && !IsDigit(e[0]) && !IsDigit(f[0])
    requires InlineKey(i, e) == InlineKey(j, f)
    ensures i == j && e == f
  {
    var di, dj := NumberToString(i), NumberToString(j);
    var s1, s2 := di + e, dj + f;
    assert InlineKey(i, e)[2..] == s1;
    assert InlineKey(j, f)[2..] == s2;
    DigitPrefixLength(di, e);
    DigitPrefixLength(dj, f);
    assert s1[..|di|] == di && s2[..|dj|] == dj;
    NumberToStringInjective(i, j);
    assert s1[|di|..] == e && s2[|dj|..] == f;
  }

  /** The configured extensions all start with something other than a digit (the defaults start with `.`). */
  predicate ExtensionsStartNonDigit(types: map<string, string>) {
    forall m :: m in types && types[m] != "" ==> !IsDigit(types[m][0])
  }

  /**
   * With such extensions, `externalizeInlineResources` returns one key
   * `__<i><ext>` per node with content, `i` its position in the whole list,
   * holding `transformed || content`, and no other key.
   */
  lemma InlineResourcesSpec(nodes: seq<Node>, types: map<string, string>)
    requires ExtensionsStartNonDigit(types)
    ensures forall k :: k in InlineResources(nodes, types) <==>
      exists i :: 0 <= i < |nodes| && Truthy(nodes[i].content) && k == KeyAt(nodes, types, i)
    ensures forall i :: 0 <= i < |nodes| && Truthy(nodes[i].content) ==>
      KeyAt(nodes, types, i) in InlineResources(nodes, types)
      && InlineResources(nodes, types)[KeyAt(nodes, types, i)] == InlineValue(nodes[i])
  {
    forall k {
      InlineEntriesKeys(nodes, types, |nodes|, k);
    }
    forall i | 0 <= i < |nodes| && Truthy(nodes[i].content)
      ensures KeyAt(nodes, types, i) in InlineResources(nodes, types)
      ensures InlineResources(nodes, types)[KeyAt(nodes, types, i)] == InlineValue(nodes[i])
    {
      forall j | i < j < |nodes| && Truthy(nodes[j].content)
        ensures KeyAt(nodes, types, j) != KeyAt(nodes, types, i)
      {
        var ei, ej := Extension(nodes[i], types), Extension(nodes[j], types);
        assert !IsDigit(ei[0]) && !IsDigit(ej[0]);
        if KeyAt(nodes, types, j) == KeyAt(nodes, types, i) {
          InlineKeyInjective(j, ej, i, ei);
        }
      }
      InlineEntriesValue(nodes, types, |nodes|, i);
    }
  }

  /** Changing only URLs does not change the inline map. */
  lemma {:induction false} InlineEntriesIgnoreUrls(a: seq<Node>, b: seq<Node>, types: map<string, string>, n: nat)
    requires n <= |a| == |b|
    requires forall i :: 0 <= i < |a| ==> b[i] == a[i].(url := b[i].url)
    ensures InlineEntries(a, types, n) == InlineEntries(b, types, n)
  {
    if n > 0 {
      InlineEntriesIgnoreUrls(a, b, types, n - 1);
    }
  }

  /** A list with no content yields an empty map. */
  lemma {:induction false} InlineEntriesOfNoContent(nodes: seq<Node>, types: map<string, string>, n: nat)
    requires n <= |nodes|
    requires forall i :: 0 <= i < |nodes| ==> !Truthy(nodes[i].content)
    ensures InlineEntries(nodes, types, n) == map[]
  {
    if n > 0 {
      InlineEntriesOfNoContent(nodes, types, n - 1);
    }
  }

  /** After externalization nothing inline is left: a second pass extracts nothing and changes nothing. */
  lemma ExternalizedIsFinal(nodes: seq<Node>, req: EndorphinRequest, types: map<string, string>)
    ensures InlineResources(Externalized(nodes, req, types), types) == map[]
    ensures Externalized(Externalized(nodes, req, types), req, types) == Externalized(nodes, req, types)
  {
    var once := Externalized(nodes, req, types);
    assert forall i :: 0 <= i < |once| ==> !Truthy(once[i].content);
    InlineEntriesOfNoContent(once, types, |once|);
  }

  /** `getExternal`: two loops pushing the local references of the scripts, then of the stylesheets. */
  method GetExternal(path: PathOps, parent: string, template: ParsedTemplate) returns (result: seq<ExternalResource>)
    ensures result == ExternalResources(path, parent, template.scripts[..], template.stylesheets[..])
  {
    result := [];
    var scripts, stylesheets := template.scripts, template.stylesheets;
    var dirname := path.dirname(parent);
    for i := 0 to scripts.Length
      invariant result == ExternalRefs(path, dirname, scripts[..i], Script)
    {
      var node := scripts[i];
      assert scripts[..i + 1][..i] == scripts[..i];
      if IsLocalRef(node.url) {
        result := result + [ExternalResource(Script, path.resolve(dirname, node.url.value))];
      }
    }
    assert scripts[..scripts.Length] == scripts[..];
    for i := 0 to stylesheets.Length
      invariant result == ExternalRefs(path, dirname, scripts[..], Script)
                         + ExternalRefs(path, dirname, stylesheets[..i], Style)
    {
      var node := stylesheets[i];
      assert stylesheets[..i + 1][..i] == stylesheets[..i];
      if IsLocalRef(node.url) {
        result := result + [ExternalResource(Style, path.resolve(dirname, node.url.value))];
      }
    }
    assert stylesheets[..stylesheets.Length] == stylesheets[..];
  }

  /** The `forEach` of `add` that makes stylesheet URLs explicitly relative. */
  method RelativizeStylesheetUrls(nodes: array<Node>)
    modifies nodes
    ensures nodes[..] == Relativized(old(nodes[..]))
  {
    for i := 0 to nodes.Length
      invariant forall k :: 0 <= k < i ==> nodes[k] == old(nodes[k]).(url := RelativeUrl(old(nodes[k]).url))
      invariant forall k :: i <= k < nodes.Length ==> nodes[k] == old(nodes[k])
    {
      var node := nodes[i];
      if Truthy(node.url) && !StartsWith(node.url.value, "./") && !StartsWith(node.url.value, "..") {
        nodes[i] := node.(url := Some("./" + node.url.value));
      }
    }
  }

  /** `externalizeInlineResources`: moves each node's inline text into the returned map. */
  method ExternalizeInlineResources(nodes: array<Node>, req: EndorphinRequest, types: map<string, string>)
    returns (result: map<string, string>)
    modifies nodes
    ensures result == InlineResources(old(nodes[..]), types)
    ensures nodes[..] == Externalized(old(nodes[..]), req, types)
  {
    ghost var original := nodes[..];
    result := map[];
    for i := 0 to nodes.Length
      invariant result == InlineEntries(original, types, i)
      invariant forall k :: 0 <= k < i ==> nodes[k] == ExternalizedNode(original[k], k, req, types)
      invariant forall k :: i <= k < nodes.Length ==> nodes[k] == original[k]
    {
      ghost var before := nodes[..];
      var node := nodes[i];
      assert node == original[i];
      if Truthy(node.content) {
        var key := InlineKey(i, Extension(node, types));
        assert InlineEntries(original, types, i + 1) == result[key := InlineValue(node)];
        result := result[key := InlineValue(node)];
        nodes[i] := node.(url := Some(SubResourceUrl(req, NodeType(node), key)), content := None, transformed := None);
      } else {
        assert InlineEntries(original, types, i + 1) == result;
      }
      assert nodes[i] == ExternalizedNode(original[i], i, req, types);
      assert nodes[..] == before[i := nodes[i]];
    }
    assert nodes[..] == Externalized(original, req, types);
  }

  /** `ParsedTemplate`, reduced to the two node lists of its AST. */
  class ParsedTemplate {
    const scripts: array<Node>
    const stylesheets: array<Node>

    constructor (scripts: seq<Node>, stylesheets: seq<Node>)
      ensures this.scripts[..] == scripts && this.stylesheets[..] == stylesheets
      ensures fresh(this.scripts) && fresh(this.stylesheets)
      ensures this.scripts != this.stylesheets
    {
      this.scripts := new Node[|scripts|](i requires 0 <= i < |scripts| => scripts[i]);
      this.stylesheets := new Node[|stylesheets|](i requires 0 <= i < |stylesheets| => stylesheets[i]);
    }
  }

  /** `Cache`: one entry per compiled template. */
  datatype CacheEntry = CacheEntry(
    template: ParsedTemplate,
    scope: string,
    external: seq<ExternalResource>,
    styles: map<string, string>,
    scripts: map<string, string>)

  /** What a load returns: the text, or the path whose read threw. */
  datatype LoadResult = Text(text: string) | ReadFailed(path: string)

  /** `EndorphinCache`; of its options only `types` is read. */
  class EndorphinCache {
    const types: map<string, string>
    var cache: map<string, CacheEntry>

    constructor (types: map<string, string>)
      ensures this.types == types && cache == map[]
    {
      this.types := types;
      cache := map[];
    }

    /**
     * `add`: the external list comes from the URLs as they were; the
     * stylesheet URLs are then made relative, the inline texts moved out, and
     * the entry under the normalised filename replaced as a whole.
     */
    method Add(req: EndorphinRequest, template: ParsedTemplate, scope: string, path: PathOps)
      requires template.scripts != template.stylesheets
      modifies this, template.scripts, template.stylesheets
      ensures template.stylesheets[..] == Externalized(Relativized(old(template.stylesheets[..])), req, types)
      ensures template.scripts[..] == Externalized(old(template.scripts[..]), req, types)
      ensures cache == old(cache)[req.normalizedFilename := CacheEntry(
        template, scope,
        ExternalResources(path, req.filename, old(template.scripts[..]), old(template.stylesheets[..])),
        InlineResources(old(template.stylesheets[..]), types),
        InlineResources(old(template.scripts[..]), types))]
    {
      var external := GetExternal(path, req.filename, template);
      ghost var sheets := template.stylesheets[..];
      RelativizeStylesheetUrls(template.stylesheets);
      InlineEntriesIgnoreUrls(sheets, Relativized(sheets), types, |sheets|);
      var styles := ExternalizeInlineResources(template.stylesheets, req, types);
      var scripts := ExternalizeInlineResources(template.scripts, req, types);
      cache := cache[req.normalizedFilename := CacheEntry(template, scope, external, styles, scripts)];
    }

    /** `get`. */
    function Get(id: string): (entry: Option<CacheEntry>)
      reads this
      ensures entry.Some? <==> id in cache
      ensures entry.Some? ==> entry.value == cache[id]
    {
      if id in cache then Some(cache[id]) else None
    }

    /** `loadStyle`: the stored text when the entry's style map has the key, the file otherwise. */
    function LoadStyle(id: string, file: string, path: PathOps, fs: FileReader): (r: LoadResult)
      reads this
      ensures id in cache && file in cache[id].styles ==> r == Text(cache[id].styles[file])
      ensures !(id in cache && file in cache[id].styles) ==> r == LoadExternal(id, file, path, fs)
    {
      var entry := Get(id);
      if entry.Some? && file in entry.value.styles then Text(entry.value.styles[file])
      else LoadExternal(id, file, path, fs)
    }

    /** `loadScript`: the same against the script map only. */
    function LoadScript(id: string, file: string, path: PathOps, fs: FileReader): (r: LoadResult)
      reads this
      ensures id in cache && file in cache[id].scripts ==> r == Text(cache[id].scripts[file])
      ensures !(id in cache && file in cache[id].scripts) ==> r == LoadExternal(id, file, path, fs)
    {
      var entry := Get(id);
      if entry.Some? && file in entry.value.scripts then Text(entry.value.scripts[file])
      else LoadExternal(id, file, path, fs)
    }

    /** `getScope`: the scope of the stored entry, if there is one. */
    function GetScope(id: string): (scope: Option<string>)
      reads this
      ensures scope.Some? <==> Get(id).Some?
      ensures scope.Some? ==> scope.value == Get(id).value.scope
    {
      if id in cache then Some(cache[id].scope) else None
    }

    /** `resolve`: one leading `/` of `file` is dropped, then it is resolved against the directory of `id`. */
    static function Resolve(id: string, file: string, path: PathOps): (r: string)
      ensures StartsWith(file, "/") ==> r == path.resolve(path.dirname(id), file[1..])
      ensures !StartsWith(file, "/") ==> r == path.resolve(path.dirname(id), file)
    {
      var relative := if StartsWith(file, "/") then file[1..] else file;
      path.resolve(path.dirname(id), relative)
    }

    /** `loadExternal`: reads the resolved file; a failed read is reported with its path. */
    static function LoadExternal(id: string, file: string, path: PathOps, fs: FileReader): (r: LoadResult)
      ensures fs(Resolve(id, file, path)).Some? ==> r == Text(fs(Resolve(id, file, path)).value)
      ensures fs(Resolve(id, file, path)).None? ==> r == ReadFailed(Resolve(id, file, path))
    {
      var p := Resolve(id, file, path);
      match fs(p)
      case Some(text) => Text(text)
      case None => ReadFailed(p)
    }
  }

  /** `resolve` strips exactly one leading `/`, and a file without one is resolved as it is. */
  lemma ResolveStripsOneSlash(id: string, file: string, path: PathOps)
    ensures EndorphinCache.Resolve(id, "/" + file, path) == path.resolve(path.dirname(id), file)
    ensures !StartsWith(file, "/") ==> EndorphinCache.Resolve(id, file, path) == path.resolve(path.dirname(id), file)
  {
    assert ("/" + file)[..1] == "/";
    assert ("/" + file)[1..] == file;
  }
}
