/** The value types shared by the ingestion pipeline (app/Sources/CCostLib/Models.swift).
    Swift `Int` is modelled as `int`, `Double` as `real`, `String?` as `Option<string>`.
    Each Swift memberwise initialiser is the datatype's constructor, which stores
    exactly the fields it is given; the `var` fields of DailySummary are updated
    with datatype update (`s.(cost := …)`). */
module Models {
  import opened Wrappers

  /** A discovered log file and its metadata. */
  datatype FileInfo = FileInfo(
    filePath: string,
    mtimeMs: int,
    size: int,
    sessionId: string,
    projectDir: string)

  /** The (mtime, size) pair kept in the cache for a path. */
  datatype CachedMeta = CachedMeta(mtimeMs: int, size: int)

  /** Classification of the discovered files against the cache: full FileInfo
      for added and changed files, paths only for removed and unchanged ones
      (Swift's `unchanged` is `unchangedPaths` here: `unchanged` is a Dafny keyword). */
  datatype DiffResult = DiffResult(
    added: seq<FileInfo>,
    changed: seq<FileInfo>,
    removed: seq<string>,
    unchangedPaths: seq<string>)

  /** One file's token totals for one (date, model). */
  datatype UsageRecord = UsageRecord(
    filePath: string,
    date: string,
    model: string,
    sessionId: string,
    projectDir: string,
    inputTokens: int,
    outputTokens: int,
    cacheCreationInputTokens: int,
    cacheReadInputTokens: int,
    messageCount: int)

  /** One date's cost, token totals and distinct session count. */
  datatype DailySummary = DailySummary(
    date: string,
    cost: real,
    inputTokens: int,
    outputTokens: int,
    cacheCreationInputTokens: int,
    cacheReadInputTokens: int,
    sessions: int)

  /** Per-million-token rates for the four token categories. */
  datatype ModelPricing = ModelPricing(
    inputPerMillion: real,
    outputPerMillion: real,
    cacheCreatePerMillion: real,
    cacheReadPerMillion: real)

  /** Command-line options. */
  datatype CliOptions = CliOptions(
    since: Option<string>,
    until: Option<string>,
    json: bool,
    project: Option<string>,
    rebuild: bool)

  /** `CliOptions()` with every parameter at its default value. */
  const DefaultOptions: CliOptions := CliOptions(None, None, false, None, false)

  /** The paths of a list of files, in order. */
  function Paths(files: seq<FileInfo>): (r: seq<string>)
    ensures |r| == |files|
    ensures forall i :: 0 <= i < |files| ==> r[i] == files[i].filePath
  {
    seq(|files|, i requires 0 <= i < |files| => files[i].filePath)
  }

  /** No element occurs twice. */
  predicate NoDuplicates<T(==)>(s: seq<T>) {
    forall i, j :: 0 <= i < j < |s| ==> s[i] != s[j]
  }

  /** Maps with the same keys and the same value at each key are equal. */
  lemma MapsEqual<K, V>(a: map<K, V>, b: map<K, V>)
    requires a.Keys == b.Keys && forall k :: k in a ==> a[k] == b[k]
    ensures a == b
  {
  }
}
