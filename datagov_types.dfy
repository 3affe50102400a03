/**
 * The values the data.gov client layer passes around: filesystem paths, its error
 * type, the download events it reports, its configuration, and the scripted
 * behaviour of the network and the filesystem that stands in for real I/O.
 */
module DataGovTypes {
  import opened Wrappers
  import opened Strings
  import opened CkanClient

  // ---------------------------------------------------------------------------
  // Paths
  // ---------------------------------------------------------------------------

  /** A filesystem path as the list of its components, as `Path::components` yields
      them on Unix: the root is the component `/`, and after it come the non-empty
      names between separators other than `.`. The empty path `""` is `Path([])`. */
  datatype Path = Path(parts: seq<string>)

  /** A path text that starts at the root. */
  predicate IsAbsolutePath(s: string) {
    s != [] && s[0] == '/'
  }

  /** The names between separators that `Path::components` keeps. */
  function NormalParts(segments: seq<string>): (parts: seq<string>)
    ensures forall i :: 0 <= i < |parts| ==> parts[i] != [] && parts[i] != "."
  {
    if segments == [] then []
    else (if segments[0] == [] || segments[0] == "." then [] else [segments[0]]) + NormalParts(segments[1..])
  }

  /** The components of a path text. */
  function Components(s: string): Path {
    Path((if IsAbsolutePath(s) then ["/"] else []) + NormalParts(SplitOn(s, '/')))
  }

  /** A name that is exactly one component. */
  predicate IsSingleName(name: string) {
    name != [] && name != "." && !ContainsChar(name, '/')
  }

  /** `Path::join`: an absolute name replaces the directory and starts at the root; a
      relative one adds its components below the directory, so a single name becomes
      the directory's child and an empty name leaves the directory as it is. */
  function JoinPath(dir: Path, name: string): (p: Path)
    ensures IsAbsolutePath(name) ==> p.parts != [] && p.parts[0] == "/"
    ensures !IsAbsolutePath(name) ==> |dir.parts| <= |p.parts| && p.parts[..|dir.parts|] == dir.parts
    ensures IsSingleName(name) ==> Parent(p) == Some(dir)
    ensures name == [] ==> p == dir
  {
    if IsAbsolutePath(name) then Components(name)
    else
      if IsSingleName(name) then
        SplitOnFree(name, '/', []);
        assert NormalParts([name]) == [name] + NormalParts([]);
        Path(dir.parts + Components(name).parts)
      else
        assert dir.parts + NormalParts(SplitOn(name, '/')) == dir.parts + Components(name).parts;
        assert name == [] ==> NormalParts(SplitOn(name, '/')) == [] + NormalParts([]);
        Path(dir.parts + Components(name).parts)
  }

  /** An absolute name does not depend on the directory it is joined onto. */
  lemma JoinAbsoluteIgnoresDir(d1: Path, d2: Path, name: string)
    requires IsAbsolutePath(name)
    ensures JoinPath(d1, name) == JoinPath(d2, name) == Components(name)
  {
  }

  /** `Path::parent`: the path without its last component. The root and the empty
      path have none; the parent of a one-name relative path is the empty path, as
      Rust's is `""`. */
  function Parent(p: Path): Option<Path> {
    if p.parts == [] || p.parts == ["/"] then None else Some(Path(p.parts[..|p.parts| - 1]))
  }

  /** Whether `perform_download` has a directory to make before the download: the
      output path has a parent, and it is not the empty path, for which
      `create_dir_all` succeeds without touching the filesystem. */
  predicate MakesParentDir(p: Path) {
    Parent(p).Some? && Parent(p).value.parts != []
  }

  // ---------------------------------------------------------------------------
  // Errors
  // ---------------------------------------------------------------------------

  /** `DataGovError`. The wrapped `reqwest`, `std::io` and `url` errors are kept as
      their rendered text. */
  datatype DataGovError =
    | CkanFailure(ckan: CkanError)
    | HttpError(reason: string)
    | IoError(reason: string)
    | UrlError(reason: string)
    | ResourceNotFound(message: string)
    | DownloadError(message: string)
    | InvalidFormat(expected: string, actual: string)
    | ConfigError(message: string)
    | ValidationError(message: string)
    | Other(message: string)

  /** The `thiserror` rendering of each variant. */
  function DataGovErrorText(e: DataGovError): string {
    match e
    case CkanFailure(c) => "CKAN API error: " + CkanErrorText(c)
    case HttpError(r) => "HTTP request failed: " + r
    case IoError(r) => "File operation failed: " + r
    case UrlError(r) => "Invalid URL: " + r
    case ResourceNotFound(m) => "Resource not found: " + m
    case DownloadError(m) => "Download failed: " + m
    case InvalidFormat(x, a) => "Invalid resource format: expected " + x + ", got " + a
    case ConfigError(m) => "Configuration error: " + m
    case ValidationError(m) => "Validation error: " + m
    case Other(m) => m
  }

  // ---------------------------------------------------------------------------
  // Download events
  // ---------------------------------------------------------------------------

  /** The five `StatusReporter` callbacks, each with its event record. */
  datatype DownloadEvent =
    | Batch(resourceCount: nat, batchDataset: Option<string>)
    | Started(resourceName: Option<string>, datasetName: Option<string>, url: string,
              outputPath: Path, totalBytes: Option<nat>)
    | Progress(resourceName: Option<string>, datasetName: Option<string>, outputPath: Path,
               downloadedBytes: nat, totalBytes: Option<nat>)
    | Finished(resourceName: Option<string>, datasetName: Option<string>, outputPath: Path)
    | Failed(resourceName: Option<string>, datasetName: Option<string>, failedPath: Option<Path>,
             error: string)

  /** An event that ends one download. */
  predicate IsTerminal(e: DownloadEvent) {
    e.Finished? || e.Failed?
  }

  // ---------------------------------------------------------------------------
  // Configuration
  // ---------------------------------------------------------------------------

  /** The parts of `DataGovConfig` the client reads: the base download directory, the
      per-dataset directory (`get_dataset_download_dir`, whose definition is not part
      of this model) and the concurrency bound. */
  datatype DataGovConfig = DataGovConfig(
    baseDownloadDir: Path,
    datasetDownloadDir: string -> Path,
    maxConcurrentDownloads: nat)

  // ---------------------------------------------------------------------------
  // Scripted I/O
  // ---------------------------------------------------------------------------

  /** One item of the response body stream: a chunk of `len` bytes whose write to the
      file may fail, or a stream error. */
  datatype Chunk =
    | Arrived(len: nat, writeError: Option<string>)
    | StreamFailed(reason: string)

  /** What a GET of one URL does: the send fails, or a response arrives with a status,
      the status's canonical reason phrase, an optional `Content-Length` and a body
      stream. */
  datatype HttpScript =
    | SendFails(reason: string)
    | Responds(status: u16, canonicalReason: Option<string>, contentLength: Option<nat>,
               chunks: seq<Chunk>)

  /** What the filesystem does for one output path: whether creating its parent
      directory fails, and whether creating the file fails. */
  datatype FsScript = FsScript(createDirError: Option<string>, createFileError: Option<string>)

  /** Everything one call observably does: its result, the events it reports (in
      order) and the URLs it sends a request to (in order). */
  datatype Transcript<T> = Transcript(
    result: Result<T, DataGovError>,
    events: seq<DownloadEvent>,
    requests: seq<string>)
}
