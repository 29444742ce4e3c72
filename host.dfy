/**
 * Collaborators the plugin calls but does not define, left uninterpreted:
 * Node's `path` module, `fs.readFileSync` and the glob filter of
 * `@rollup/pluginutils`. Nothing is claimed about what they compute.
 */
module Host {
  import opened Wrappers

  /** `path.normalize`, `path.dirname` and the two-argument `path.resolve`. */
  datatype PathOps = PathOps(
    normalize: string -> string,
    dirname: string -> string,
    resolve: (string, string) -> string)

  /** `fs.readFileSync(path, 'utf-8')`: the text, or `None` where the read throws. */
  type FileReader = string -> Option<string>

  /** `createFilter(include, exclude)`: builds a path predicate from the two pattern lists. */
  type FilterFactory = (seq<string>, seq<string>) -> (string -> bool)
}
