/**
 * The request-id parser of src/utils/id.ts: turns a bundler module id
 * `path?query` into an `EndorphinRequest`, or into nothing when the path is
 * not a template this plugin owns. Pure string processing over options
 * captured once, when the parser is built.
 */
module Id {
  import opened Wrappers
  import opened JsString
  import opened Host
  import opened Types

  /** `parseSubResource(query = '')`: `type=file` taken from `query.split('=', 2)`, the type cast unchecked. */
  function ParseSubResource(query: Option<string>): (r: Option<ComponentSubresource>)
    ensures r.Some? ==> query.Some?
    ensures r.Some? ==> r.value.kind != "" && r.value.file != "" && '=' !in r.value.kind && '=' !in r.value.file
    ensures r.Some? ==> StartsWith(query.value, r.value.kind + ['='] + r.value.file)
  {
    var q := if query.Some? then query.value else "";
    var pieces := Split(q, '=', 2);
    SplitTwo(q, '=');
    assert '=' in q ==> (StartsWith(After(q, '=').value, Before(After(q, '=').value, '='))
                         && q == Before(q, '=') + ['='] + After(q, '=').value);
    if pieces[0] != "" && |pieces| == 2 && pieces[1] != "" then
      Some(ComponentSubresource(pieces[0], pieces[1]))
    else
      None
  }

  /**
   * A sub-resource is present exactly when the query has an `=` with text
   * before it and text between it and the next `=`; the type is the text
   * before, the file the text between, and anything after a second `=` is lost.
   */
  lemma ParseSubResourceSpec(query: Option<string>)
    ensures var q := if query.Some? then query.value else "";
      && (ParseSubResource(query).Some? <==>
            '=' in q && Before(q, '=') != "" && Before(After(q, '=').value, '=') != "")
      && (ParseSubResource(query).Some? ==>
            ParseSubResource(query).value
              == ComponentSubresource(Before(q, '='), Before(After(q, '=').value, '=')))
  {
    var q := if query.Some? then query.value else "";
    SplitTwo(q, '=');
  }

  /** `stripRoot`: drops the root only when the path continues with a separator after it. */
  function StripRoot(normalizedFilename: string, normalizedRoot: string): (r: string)
    ensures StartsWith(normalizedFilename, normalizedRoot + "/") ==>
      normalizedRoot + r == normalizedFilename && StartsWith(r, "/")
    ensures !StartsWith(normalizedFilename, normalizedRoot + "/") ==> r == normalizedFilename
  {
    if StartsWith(normalizedFilename, normalizedRoot + "/") then
      assert normalizedFilename == normalizedRoot + normalizedFilename[|normalizedRoot|..];
      normalizedFilename[|normalizedRoot|..]
    else
      normalizedFilename
  }

  /** A path that merely begins with the root's text, without a separator after it, is kept whole. */
  lemma StripRootPartialPrefix(root: string, rest: string)
    requires !StartsWith(rest, "/")
    ensures StripRoot(root + rest, root) == root + rest
  {
    var p := root + rest;
    assert |rest| > 0 ==> p[|root|] == rest[0] && rest[..1] == [rest[0]];
  }

  /** A path under the root loses exactly the root and keeps its leading separator. */
  lemma StripRootUnderRoot(root: string, rest: string)
    ensures StripRoot(root + "/" + rest, root) == "/" + rest
  {
    var p := root + "/" + rest;
    assert p[..|root + "/"|] == root + "/";
  }

  /** `normalize`: the normalised path with the root stripped. */
  function Normalize(filename: string, normalizedRoot: string, normalizePath: string -> string): (r: string)
    ensures StartsWith(normalizePath(filename), normalizedRoot + "/") ==>
      normalizedRoot + r == normalizePath(filename) && StartsWith(r, "/")
    ensures !StartsWith(normalizePath(filename), normalizedRoot + "/") ==> r == normalizePath(filename)
  {
    StripRoot(normalizePath(filename), normalizedRoot)
  }

  /** `parseToEndorphinRequest`. */
  function ParseToEndorphinRequest(
    id: string, filename: string, query: Option<string>, root: string,
    normalizePath: string -> string, timestamp: int): (r: EndorphinRequest)
    ensures r.id == id && r.filename == filename && r.root == root && r.timestamp == timestamp
    ensures r.normalizedFilename == Normalize(filename, root, normalizePath)
    ensures r.sub.Some? ==> query.Some?
  {
    EndorphinRequest(id, root, filename, Normalize(filename, root, normalizePath),
                     ParseSubResource(query), timestamp)
  }

  /** `extensions.some((ext) => filename.endsWith(ext))`. */
  function AnyEndsWith(filename: string, extensions: seq<string>): (r: bool)
    ensures r <==> exists k :: 0 <= k < |extensions| && EndsWith(filename, extensions[k])
  {
    if |extensions| == 0 then false
    else if EndsWith(filename, extensions[0]) then true
    else
      var r := AnyEndsWith(filename, extensions[1..]);
      assert forall k :: 1 <= k < |extensions| ==> extensions[k] == extensions[1..][k - 1];
      r
  }

  /** `buildFilter`: the glob filter and an extension match must both accept. */
  function BuildFilter(rollupFilter: string -> bool, extensions: seq<string>): (filter: string -> bool)
    ensures forall filename :: filter(filename) <==>
      rollupFilter(filename) && exists k :: 0 <= k < |extensions| && EndsWith(filename, extensions[k])
  {
    (filename: string) => rollupFilter(filename) && AnyEndsWith(filename, extensions)
  }

  /** What the closure returned by `buildIdParser` captures. */
  datatype IdParser = IdParser(
    normalizedRoot: string,
    normalizePath: string -> string,
    filter: string -> bool)

  /** `buildIdParser`: normalises the root once and builds the filter once. */
  function BuildIdParser(options: ResolvedOptions, path: PathOps, createFilter: FilterFactory): (parser: IdParser)
    ensures parser.normalizedRoot == path.normalize(options.root)
    ensures forall f :: parser.normalizePath(f) == path.normalize(f)
    ensures forall filename :: parser.filter(filename) <==>
      && createFilter(options.includePatterns, options.excludePatterns)(filename)
      && exists k :: 0 <= k < |options.extensions| && EndsWith(filename, options.extensions[k])
  {
    IdParser(path.normalize(options.root), path.normalize,
             BuildFilter(createFilter(options.includePatterns, options.excludePatterns), options.extensions))
  }

  /** The closure itself, applied to `(id, timestamp)`; `timestamp` replaces the `Date.now()` default. */
  function ParseId(parser: IdParser, id: string, timestamp: int): (r: Option<EndorphinRequest>)
    ensures r.Some? <==> parser.filter(Before(id, '?'))
    ensures r.Some? ==> r.value.id == id && r.value.filename == Before(id, '?') && r.value.timestamp == timestamp
    ensures r.Some? && r.value.sub.Some? ==> '?' in id
  {
    var parts := Split(id, '?', 2);
    SplitTwo(id, '?');
    var filename := parts[0];
    var rawQuery := if |parts| == 2 then Some(parts[1]) else None;
    if parser.filter(filename) then
      Some(ParseToEndorphinRequest(id, filename, rawQuery, parser.normalizedRoot, parser.normalizePath, timestamp))
    else
      None
  }

  /**
   * The parser rejects exactly the ids whose text before the first `?` the
   * filter rejects; otherwise the request keeps the id, the root and the
   * timestamp, its filename is that text, its key the stripped normal form
   * of it, and its sub-resource comes from the text between the first and
   * the second `?` (none when there is no `?`).
   */
  lemma ParseIdSpec(parser: IdParser, id: string, timestamp: int)
    ensures ParseId(parser, id, timestamp).None? <==> !parser.filter(Before(id, '?'))
    ensures ParseId(parser, id, timestamp).Some? ==>
      var filename := Before(id, '?');
      ParseId(parser, id, timestamp).value == EndorphinRequest(
        id, parser.normalizedRoot, filename,
        StripRoot(parser.normalizePath(filename), parser.normalizedRoot),
        ParseSubResource(if '?' in id then Some(Before(After(id, '?').value, '?')) else None),
        timestamp)
  {
    SplitTwo(id, '?');
  }

  /**
   * No query, a query without `=`, one with nothing before its first `=` and
   * one with nothing after it all give no sub-resource.
   */
  lemma ParseSubResourceRejects(q: string, t: string)
    requires '=' !in t
    ensures ParseSubResource(None) == None
    ensures '=' !in q ==> ParseSubResource(Some(q)) == None
    ensures ParseSubResource(Some(['='] + q)) == None
    ensures ParseSubResource(Some(t + ['='])) == None
  {
    ParseSubResourceSpec(None);
    ParseSubResourceSpec(Some(q));
    ParseSubResourceSpec(Some(['='] + q));
    BeforeAfterAtSeparator([], '=', q);
    assert [] + ['='] + q == ['='] + q;
    ParseSubResourceSpec(Some(t + ['=']));
    BeforeAfterAtSeparator(t, '=', []);
    assert t + ['='] + [] == t + ['='];
  }

  /** Any non-empty type is taken as it stands, `foo=bar` naming a sub-resource of type `foo`. */
  lemma ParseSubResourceUncheckedType(t: string, file: string)
    requires '=' !in t && '=' !in file && t != "" && file != ""
    ensures ParseSubResource(Some(t + ['='] + file)) == Some(ComponentSubresource(t, file))
  {
    SplitTwoAtSeparator(t, '=', file);
  }

  /** The file stops at a second `=`: in `style=a=b` the `=b` is dropped. */
  lemma ParseSubResourceDropsTail(t: string, file: string, rest: string)
    requires '=' !in t && '=' !in file && t != "" && file != ""
    ensures ParseSubResource(Some(t + ['='] + file + ['='] + rest)) == Some(ComponentSubresource(t, file))
  {
    var q := t + ['='] + file + ['='] + rest;
    assert q == t + ['='] + (file + ['='] + rest);
    BeforeAfterAtSeparator(t, '=', file + ['='] + rest);
    BeforeAfterAtSeparator(file, '=', rest);
    ParseSubResourceSpec(Some(q));
  }
}
