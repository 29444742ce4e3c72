/** The record shapes of src/types.ts that the core builds and reads. */
module Types {
  import opened Wrappers

  /** `EndorphinResourceType`: `'style' | 'script'`. */
  datatype EndorphinResourceType = Script | Style {
    function Name(): string {
      if Script? then "script" else "style"
    }
  }

  /**
   * `ComponentSubresource`. Its `type` field (here `kind`, since `type` is a
   * Dafny keyword) is declared as an `EndorphinResourceType`, but the parser
   * fills it by an unchecked cast, so at run time it holds any string.
   */
  datatype ComponentSubresource = ComponentSubresource(kind: string, file: string)

  /** `EndorphinRequest`; `timestamp` is a number of milliseconds. */
  datatype EndorphinRequest = EndorphinRequest(
    id: string,
    root: string,
    filename: string,
    normalizedFilename: string,
    sub: Option<ComponentSubresource>,
    timestamp: int)

  /** The fields of `ResolvedOptions` the core reads (`include`/`exclude` are glob pattern lists). */
  datatype ResolvedOptions = ResolvedOptions(
    includePatterns: seq<string>,
    excludePatterns: seq<string>,
    extensions: seq<string>,
    root: string,
    types: map<string, string>)
}
