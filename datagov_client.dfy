/**
 * `DataGovClient`: dataset search on top of the CKAN client, the choice of
 * downloadable resources and of their file names, and the download state machine
 * with its event stream, for one resource and for a batch.
 */
module DataGov {
  import opened Wrappers
  import opened Strings
  import opened Seqs
  import opened CkanModels
  import opened CkanClient
  import opened DataGovTypes

  // ---------------------------------------------------------------------------
  // Search filter
  // ---------------------------------------------------------------------------

  function Quoted(s: string): string {
    "\"" + s + "\""
  }

  /** The Solr `fq` filter `search` builds from an organization and a format: there is
      one exactly when either is given. */
  function SearchFilter(organization: Option<string>, format: Option<string>): (fq: Option<string>)
    ensures fq.Some? <==> organization.Some? || format.Some?
  {
    match (organization, format)
    case (Some(org), Some(fmt)) => Some("organization:" + Quoted(org) + " AND res_format:" + Quoted(fmt))
    case (Some(org), None) => Some("organization:" + Quoted(org))
    case (None, Some(fmt)) => Some("res_format:" + Quoted(fmt))
    case (None, None) => None
  }

  /** The filter opens with the organization clause when one is given and closes with
      the format clause when one is given; with both, they are joined by ` AND `. */
  lemma SearchFilterShape(organization: Option<string>, format: Option<string>)
    ensures organization.Some? ==>
              StartsWith(SearchFilter(organization, format).value, "organization:" + Quoted(organization.value))
    ensures format.Some? ==>
              EndsWith(SearchFilter(organization, format).value, "res_format:" + Quoted(format.value))
    ensures organization.Some? && format.Some? ==>
              SearchFilter(organization, format).value ==
              "organization:" + Quoted(organization.value) + " AND " + "res_format:" + Quoted(format.value)
    ensures organization.Some? && format.None? ==>
              SearchFilter(organization, format) == Some("organization:" + Quoted(organization.value))
    ensures organization.None? && format.Some? ==>
              SearchFilter(organization, format) == Some("res_format:" + Quoted(format.value))
  {
    var f := SearchFilter(organization, format);
    if organization.Some? {
      var o := "organization:" + Quoted(organization.value);
      if format.Some? {
        var rest := " AND res_format:" + Quoted(format.value);
        assert f.value == o + rest;
        assert (o + rest)[..|o|] == o;
        assert o + rest == o + " AND " + "res_format:" + Quoted(format.value);
        var t := "res_format:" + Quoted(format.value);
        assert f.value == (o + " AND ") + t;
        assert ((o + " AND ") + t)[|(o + " AND ") + t| - |t|..] == t;
      } else {
        assert f.value[..|o|] == o;
      }
    } else if format.Some? {
      assert f.value[|f.value| - |f.value|..] == f.value;
    }
  }

  // ---------------------------------------------------------------------------
  // Downloadable resources
  // ---------------------------------------------------------------------------

  /** A resource with a URL that is not an API endpoint and that advertises a format. */
  predicate IsDownloadable(r: Resource) {
    r.url.Some? && r.urlType != Some("api") && r.format.Some?
  }

  /** `get_downloadable_resources`: the downloadable resources of a package, in their
      original order; a package without a resource list has none. */
  function GetDownloadableResources(p: Package): (rs: seq<Resource>)
    ensures forall r :: r in rs <==> r in p.resources.UnwrapOr([]) && IsDownloadable(r)
    ensures IsSubsequence(rs, p.resources.UnwrapOr([]))
    ensures p.resources.None? ==> rs == []
  {
    FilterIsSubsequence(IsDownloadable, p.resources.UnwrapOr([]));
    Filter(IsDownloadable, p.resources.UnwrapOr([]))
  }

  // ---------------------------------------------------------------------------
  // The last path segment of a URL
  // ---------------------------------------------------------------------------

  /** The index of the first `c` in `s`, or `|s|` when there is none. */
  function FirstIndex(s: string, c: char): (i: nat)
    ensures i <= |s|
    ensures i < |s| ==> s[i] == c
    ensures forall j :: 0 <= j < i ==> s[j] != c
  {
    if s == [] then 0
    else if s[0] == c then 0
    else 1 + FirstIndex(s[1..], c)
  }

  /** The index just past the last `/` of `path` (0 when it has none). */
  function SegmentStart(path: string): (k: nat)
    ensures k <= |path|
    ensures forall j :: k <= j < |path| ==> path[j] != '/'
    ensures k > 0 ==> path[k - 1] == '/'
  {
    if path == [] || path[|path| - 1] == '/' then |path|
    else SegmentStart(path[..|path| - 1])
  }

  /** What follows the last `/` of `path` (all of `path` when it has none). */
  function LastSegment(path: string): (seg: string)
    ensures !ContainsChar(seg, '/')
    ensures EndsWith(path, seg)
    ensures |seg| < |path| ==> path[|path| - |seg| - 1] == '/'
  {
    path[SegmentStart(path)..]
  }

  /** A URL scheme: a letter, then letters, digits, `+`, `-` or `.`. */
  predicate IsScheme(s: string) {
    s != [] && IsAsciiLetter(s[0]) && forall i :: 0 <= i < |s| ==> IsSchemeChar(s[i])
  }

  predicate IsAsciiLetter(c: char) {
    ('a' <= c <= 'z') || ('A' <= c <= 'Z')
  }

  predicate IsSchemeChar(c: char) {
    IsAsciiLetter(c) || ('0' <= c <= '9') || c == '+' || c == '-' || c == '.'
  }

  /** The last element of `Url::parse(url)?.path_segments()?`, for URLs of the form
      `scheme://authority[/path][?query][#fragment]`; `None` for anything else. */
  function UrlLastSegment(url: string): (seg: Option<string>)
    ensures seg.Some? ==> !ContainsChar(seg.value, '/')
  {
    var colon := FirstIndex(url, ':');
    if colon == |url| || !IsScheme(url[..colon]) || !StartsWith(url[colon + 1..], "//") then None
    else Some(AuthorityPathLastSegment(url[colon + 3..]))
  }

  /** The last path segment of what follows `scheme://`: the query and fragment are cut
      off, the authority runs up to the first `/`, the path is the rest. */
  function AuthorityPathLastSegment(rest: string): (seg: string)
    ensures !ContainsChar(seg, '/')
  {
    var hierarchical := HierarchicalPart(rest);
    LastSegment(hierarchical[FirstIndex(hierarchical, '/')..])
  }

  /** The authority and path: everything before the first `?` or `#`. */
  function HierarchicalPart(rest: string): (h: string)
    ensures |h| <= |rest|
  {
    var q := FirstIndex(rest, '?');
    var f := FirstIndex(rest, '#');
    rest[..if q < f then q else f]
  }

  // ---------------------------------------------------------------------------
  // File names
  // ---------------------------------------------------------------------------

  /** The extension a format gives a file name. */
  function Extension(format: string): string {
    "." + AsciiLower(format)
  }

  /** `get_resource_filename`: the resource's name (with the format's extension added
      unless it already ends with it), else the URL's last path segment when it is
      non-empty and has a dot, else the fallback (or `data`) with the format's
      extension, or `.dat`. */
  function ResourceFilename(r: Resource, fallback: Option<string>): (f: string)
    ensures r.name.Some? ==> StartsWith(f, r.name.value)
    ensures r.name.None? ==> f != [] && ContainsChar(f, '.')
  {
    if r.name.Some? then
      if r.format.Some? then
        if EndsWith(r.name.value, Extension(r.format.value)) then r.name.value
        else
          var f := r.name.value + Extension(r.format.value);
          assert f[..|r.name.value|] == r.name.value;
          f
      else r.name.value
    else if r.url.Some? && UrlLastSegment(r.url.value).Some?
            && UrlLastSegment(r.url.value).value != [] && ContainsChar(UrlLastSegment(r.url.value).value, '.') then
      UrlLastSegment(r.url.value).value
    else
      var base := fallback.UnwrapOr("data");
      var ext := if r.format.Some? then Extension(r.format.value) else ".dat";
      assert (base + ext)[|base|] == '.';
      base + ext
  }

  /** A named resource's file name is the name followed by the format's extension,
      exactly once: the name unchanged when it already ends with the extension and
      the name plus the extension otherwise. Without a format it is the name. */
  lemma NamedFilename(r: Resource, fallback: Option<string>)
    requires r.name.Some?
    ensures r.format.None? ==> ResourceFilename(r, fallback) == r.name.value
    ensures r.format.Some? ==>
              var ext := Extension(r.format.value);
              EndsWith(ResourceFilename(r, fallback), ext)
              && StartsWith(ResourceFilename(r, fallback), r.name.value)
              && (ResourceFilename(r, fallback) == r.name.value <==> EndsWith(r.name.value, ext))
  {
    if r.format.Some? {
      var n := r.name.value;
      var ext := Extension(r.format.value);
      if !EndsWith(n, ext) {
        EndsWithConcat(n, ext);
        assert (n + ext)[..|n|] == n;
        assert |n + ext| > |n|;
      }
    }
  }

  /** An unnamed resource takes its URL's last path segment when that is non-empty and
      has a dot, and otherwise the fallback (or `data`) with the format's extension, or
      `.dat` without a format. */
  lemma UnnamedFilename(r: Resource, fallback: Option<string>)
    requires r.name.None?
    ensures var seg := if r.url.Some? then UrlLastSegment(r.url.value) else None;
            ResourceFilename(r, fallback) ==
              if seg.Some? && seg.value != [] && ContainsChar(seg.value, '.') then seg.value
              else fallback.UnwrapOr("data") + (if r.format.Some? then Extension(r.format.value) else ".dat")
  {
  }

  /** When the resource has a name, neither its URL nor the fallback is consulted. */
  lemma NamedFilenameIgnoresUrl(r: Resource, url: Option<string>, f1: Option<string>, f2: Option<string>)
    requires r.name.Some?
    ensures ResourceFilename(r, f1) == ResourceFilename(r.(url := url), f2)
  {
  }

  /** The suffix test is case-sensitive: `R.CSV` with format `CSV` becomes `R.CSV.csv`. */
  lemma SuffixTestIsCaseSensitive()
    ensures ResourceFilename(Resource(None, Some("R.CSV"), None, Some("CSV"), None, None, None), None)
            == "R.CSV.csv"
  {
    var ext := Extension("CSV");
    assert ext == ".csv";
    assert !EndsWith("R.CSV", ext) by {
      assert "R.CSV"[1] != ext[0] || "R.CSV"[2] != ext[1];
    }
  }

  /** A URL `scheme://host/path` (no query, no fragment) has the last segment of its
      path as its last path segment. */
  lemma UrlLastSegmentOfParts(scheme: string, host: string, path: string)
    requires IsScheme(scheme)
    requires !ContainsChar(host, '/') && !ContainsChar(host, '?') && !ContainsChar(host, '#')
    requires !ContainsChar(path, '?') && !ContainsChar(path, '#')
    requires path == [] || path[0] == '/'
    ensures UrlLastSegment(scheme + "://" + host + path) == Some(LastSegment(path))
  {
    SchemeSplit(scheme, host + path);
    assert scheme + "://" + host + path == scheme + "://" + (host + path);
    AuthorityAndPath(host, path);
  }

  /** With no query or fragment, the path starts at the first `/` after the host. */
  lemma AuthorityAndPath(host: string, path: string)
    requires !ContainsChar(host, '/') && !ContainsChar(host, '?') && !ContainsChar(host, '#')
    requires !ContainsChar(path, '?') && !ContainsChar(path, '#')
    requires path == [] || path[0] == '/'
    ensures AuthorityPathLastSegment(host + path) == LastSegment(path)
  {
    var rest := host + path;
    NoCharIndex(rest, host, path, '?');
    NoCharIndex(rest, host, path, '#');
    WholeHierarchical(rest);
    PathAfterHost(rest, host, path);
  }

  lemma WholeHierarchical(rest: string)
    requires FirstIndex(rest, '?') == |rest| && FirstIndex(rest, '#') == |rest|
    ensures HierarchicalPart(rest) == rest
  {
    assert rest[..|rest|] == rest;
  }

  lemma PathAfterHost(rest: string, host: string, path: string)
    requires rest == host + path && !ContainsChar(host, '/')
    requires path == [] || path[0] == '/'
    ensures rest[FirstIndex(rest, '/')..] == path
  {
    NoCharIndex(rest, host, path, '/');
    assert rest[|host|..] == path;
  }

  /** The scheme of `scheme://rest` ends at its first colon. */
  lemma SchemeSplit(scheme: string, rest: string)
    requires IsScheme(scheme)
    ensures var url := scheme + "://" + rest;
            FirstIndex(url, ':') == |scheme| && url[..|scheme|] == scheme
            && StartsWith(url[|scheme| + 1..], "//") && url[|scheme| + 3..] == rest
  {
    var tail := "://" + rest;
    var url := scheme + tail;
    assert url == scheme + "://" + rest;
    forall k | 0 <= k < |scheme|
      ensures scheme[k] != ':'
    {
      assert IsSchemeChar(scheme[k]);
    }
    NoCharIndex(url, scheme, tail, ':');
    assert url[..|scheme|] == scheme;
    assert url[|scheme| + 1..][..2] == "//";
    assert url[|scheme| + 3..] == rest;
  }

  /** A URL ending in `/` has an empty last segment, so an unnamed resource with such
      a URL falls back to `data` with the format's extension. */
  lemma TrailingSlashFallsBack(scheme: string, host: string, path: string, format: string)
    requires IsScheme(scheme)
    requires !ContainsChar(host, '/') && !ContainsChar(host, '?') && !ContainsChar(host, '#')
    requires !ContainsChar(path, '?') && !ContainsChar(path, '#')
    requires path != [] && path[0] == '/' && path[|path| - 1] == '/'
    ensures UrlLastSegment(scheme + "://" + host + path) == Some("")
    ensures ResourceFilename(Resource(None, None, Some(scheme + "://" + host + path), Some(format), None, None, None), None)
            == "data" + Extension(format)
  {
    UrlLastSegmentOfParts(scheme, host, path);
  }

  /** In `a + b` where `a` holds no `c`, the first `c` is in `b`; when `b` has none
      either, there is none. */
  lemma NoCharIndex(s: string, a: string, b: string, c: char)
    requires s == a + b && !ContainsChar(a, c)
    ensures FirstIndex(s, c) == |a| + FirstIndex(b, c)
    decreases |a|
  {
    if a == [] {
      assert s == b;
    } else {
      assert s[1..] == a[1..] + b;
      forall j | 0 <= j < |a[1..]|
        ensures a[1..][j] != c
      {
        assert a[1..][j] == a[j + 1];
      }
      NoCharIndex(s[1..], a[1..], b, c);
    }
  }

  // ---------------------------------------------------------------------------
  // One download
  // ---------------------------------------------------------------------------

  /** Who is downloading what to where, as every event of one download repeats it. */
  datatype DownloadInfo = DownloadInfo(
    resourceName: Option<string>,
    datasetName: Option<string>,
    url: string,
    outputPath: Path)

  function Failure(info: DownloadInfo, message: string): DownloadEvent {
    Failed(info.resourceName, info.datasetName, Some(info.outputPath), message)
  }

  /** `StatusCode`'s `Display`: the number and the canonical reason phrase. */
  function StatusText(status: u16, canonicalReason: Option<string>): string {
    NatToString(status) + " " + canonicalReason.UnwrapOr("<unknown status code>")
  }

  function HttpFailureMessage(status: u16, canonicalReason: Option<string>, url: string): string {
    "HTTP " + StatusText(status, canonicalReason) + " while downloading " + url
  }

  /** The body stream once the file is open, from a byte count of `downloaded`. */
  datatype StreamOutcome = StreamOutcome(result: Result<Unit, DataGovError>, events: seq<DownloadEvent>)

  function Stream(info: DownloadInfo, total: Option<nat>, chunks: seq<Chunk>, downloaded: nat): (s: StreamOutcome)
    ensures 1 <= |s.events| <= |chunks| + 1
    decreases |chunks|
  {
    if chunks == [] then
      StreamOutcome(Ok(Unit), [Finished(info.resourceName, info.datasetName, info.outputPath)])
    else match chunks[0]
      case StreamFailed(e) => StreamOutcome(Err(HttpError(e)), [Failure(info, e)])
      case Arrived(len, Some(e)) => StreamOutcome(Err(IoError(e)), [Failure(info, e)])
      case Arrived(len, None) =>
        var rest := Stream(info, total, chunks[1..], downloaded + len);
        StreamOutcome(rest.result,
                      [Progress(info.resourceName, info.datasetName, info.outputPath, downloaded + len, total)]
                      + rest.events)
  }

  /** One written chunk adds its `Progress` event in front of the rest of the stream. */
  lemma StreamStep(info: DownloadInfo, total: Option<nat>, chunks: seq<Chunk>, d: nat)
    requires chunks != [] && chunks[0].Arrived? && chunks[0].writeError.None?
    ensures var rest := Stream(info, total, chunks[1..], d + chunks[0].len);
            Stream(info, total, chunks, d) ==
            StreamOutcome(rest.result,
                          [Progress(info.resourceName, info.datasetName, info.outputPath, d + chunks[0].len, total)]
                          + rest.events)
  {
  }

  /** The stream of `chunks` is the events `progress` already reported followed by the
      stream of what is left from chunk `i` on, at a byte count of `d`. */
  predicate Resumes(info: DownloadInfo, total: Option<nat>, chunks: seq<Chunk>, i: nat, d: nat,
                    progress: seq<DownloadEvent>) {
    i <= |chunks| &&
    var rest := Stream(info, total, chunks[i..], d);
    Stream(info, total, chunks, 0) == StreamOutcome(rest.result, progress + rest.events)
  }

  lemma ResumeWritten(info: DownloadInfo, total: Option<nat>, chunks: seq<Chunk>, i: nat, d: nat,
                      progress: seq<DownloadEvent>)
    requires Resumes(info, total, chunks, i, d, progress)
    requires i < |chunks| && chunks[i].Arrived? && chunks[i].writeError.None?
    ensures Resumes(info, total, chunks, i + 1, d + chunks[i].len,
                    progress + [Progress(info.resourceName, info.datasetName, info.outputPath,
                                         d + chunks[i].len, total)])
  {
    var event := Progress(info.resourceName, info.datasetName, info.outputPath, d + chunks[i].len, total);
    assert chunks[i..][0] == chunks[i] && chunks[i..][1..] == chunks[i + 1..];
    StreamStep(info, total, chunks[i..], d);
    var after := Stream(info, total, chunks[i + 1..], d + chunks[i].len);
    ConcatAssoc(progress, [event], after.events);
  }

  lemma ResumeFailed(info: DownloadInfo, total: Option<nat>, chunks: seq<Chunk>, i: nat, d: nat,
                     progress: seq<DownloadEvent>)
    requires Resumes(info, total, chunks, i, d, progress)
    requires i < |chunks| && !(chunks[i].Arrived? && chunks[i].writeError.None?)
    ensures chunks[i].StreamFailed? ==>
              Stream(info, total, chunks, 0)
              == StreamOutcome(Err(HttpError(chunks[i].reason)), progress + [Failure(info, chunks[i].reason)])
    ensures chunks[i].Arrived? ==>
              Stream(info, total, chunks, 0)
              == StreamOutcome(Err(IoError(chunks[i].writeError.value)),
                               progress + [Failure(info, chunks[i].writeError.value)])
  {
    assert chunks[i..][0] == chunks[i];
  }

  lemma ResumeEnd(info: DownloadInfo, total: Option<nat>, chunks: seq<Chunk>, d: nat,
                  progress: seq<DownloadEvent>)
    requires Resumes(info, total, chunks, |chunks|, d, progress)
    ensures Stream(info, total, chunks, 0)
            == StreamOutcome(Ok(Unit), progress + [Finished(info.resourceName, info.datasetName, info.outputPath)])
  {
    assert chunks[|chunks|..] == [];
  }

  /** `perform_download` as a function of what the filesystem and the network do. */
  function Download(info: DownloadInfo, http: HttpScript, fs: FsScript): (t: Transcript<Unit>)
    ensures t.events != []
    ensures t.requests == [] || t.requests == [info.url]
    ensures t.result.Ok? ==> http.Responds? && IsSuccessStatus(http.status) && fs.createFileError.None?
  {
    if MakesParentDir(info.outputPath) && fs.createDirError.Some? then
      Transcript(Err(IoError(fs.createDirError.value)), [Failure(info, fs.createDirError.value)], [])
    else match http
      case SendFails(e) => Transcript(Err(HttpError(e)), [Failure(info, e)], [info.url])
      case Responds(status, reason, total, chunks) =>
        if !IsSuccessStatus(status) then
          var m := HttpFailureMessage(status, reason, info.url);
          Transcript(Err(DownloadError(m)), [Failure(info, m)], [info.url])
        else
          var started := Started(info.resourceName, info.datasetName, info.url, info.outputPath, total);
          if fs.createFileError.Some? then
            Transcript(Err(IoError(fs.createFileError.value)), [started, Failure(info, fs.createFileError.value)], [info.url])
          else
            var s := Stream(info, total, chunks, 0);
            Transcript(s.result, [started] + s.events, [info.url])
  }

  /** The bytes of the chunks that arrived. */
  function ArrivedBytes(chunks: seq<Chunk>): nat {
    if chunks == [] then 0
    else (if chunks[0].Arrived? then chunks[0].len else 0) + ArrivedBytes(chunks[1..])
  }

  /** Every chunk arrives and is written. */
  predicate AllWritten(chunks: seq<Chunk>) {
    forall i :: 0 <= i < |chunks| ==> chunks[i].Arrived? && chunks[i].writeError.None?
  }

  /** The stream reports one `Progress` per chunk written, carrying the running byte
      count, then exactly one terminal event: `Finished` when every chunk was written
      and `Failed` at the first chunk that was not. */
  lemma StreamShape(info: DownloadInfo, total: Option<nat>, chunks: seq<Chunk>, d: nat)
    ensures var s := Stream(info, total, chunks, d);
            1 <= |s.events| <= |chunks| + 1
            && (forall k :: 0 <= k < |s.events| - 1 ==>
                  s.events[k] == Progress(info.resourceName, info.datasetName, info.outputPath,
                                          d + ArrivedBytes(chunks[..k + 1]), total))
            && EndsWithOneTerminal(s.events)
            && (s.result.Ok? <==> s.events[|s.events| - 1].Finished?)
            && (s.result.Ok? <==> AllWritten(chunks))
            && (s.result.Ok? ==> |s.events| == |chunks| + 1)
  {
    StreamProgress(info, total, chunks, d);
    StreamEnds(info, total, chunks, d);
    StreamWritten(info, total, chunks, d);
  }

  lemma {:induction false} StreamProgress(info: DownloadInfo, total: Option<nat>, chunks: seq<Chunk>, d: nat)
    ensures var s := Stream(info, total, chunks, d);
            1 <= |s.events| <= |chunks| + 1
            && forall k :: 0 <= k < |s.events| - 1 ==>
                 s.events[k] == Progress(info.resourceName, info.datasetName, info.outputPath,
                                         d + ArrivedBytes(chunks[..k + 1]), total)
    decreases |chunks|
  {
    var s := Stream(info, total, chunks, d);
    if chunks != [] && chunks[0].Arrived? && chunks[0].writeError.None? {
      var len := chunks[0].len;
      var rest := Stream(info, total, chunks[1..], d + len);
      StreamProgress(info, total, chunks[1..], d + len);
      forall k | 0 <= k < |s.events| - 1
        ensures s.events[k] == Progress(info.resourceName, info.datasetName, info.outputPath,
                                        d + ArrivedBytes(chunks[..k + 1]), total)
      {
        assert chunks[..k + 1][1..] == chunks[1..][..k];
        if k > 0 {
          assert s.events[k] == rest.events[k - 1];
        }
      }
    }
  }

  lemma {:induction false} StreamEnds(info: DownloadInfo, total: Option<nat>, chunks: seq<Chunk>, d: nat)
    ensures var s := Stream(info, total, chunks, d);
            EndsWithOneTerminal(s.events)
            && (s.result.Ok? <==> s.events[|s.events| - 1].Finished?)
            && (s.result.Ok? ==> |s.events| == |chunks| + 1)
    decreases |chunks|
  {
    if chunks != [] && chunks[0].Arrived? && chunks[0].writeError.None? {
      var len := chunks[0].len;
      var rest := Stream(info, total, chunks[1..], d + len);
      StreamEnds(info, total, chunks[1..], d + len);
      ConsNonTerminal(Progress(info.resourceName, info.datasetName, info.outputPath, d + len, total), rest.events);
    }
  }

  lemma {:induction false} StreamWritten(info: DownloadInfo, total: Option<nat>, chunks: seq<Chunk>, d: nat)
    ensures Stream(info, total, chunks, d).result.Ok? <==> AllWritten(chunks)
    decreases |chunks|
  {
    if chunks != [] && chunks[0].Arrived? && chunks[0].writeError.None? {
      StreamWritten(info, total, chunks[1..], d + chunks[0].len);
      if AllWritten(chunks[1..]) {
        forall i | 0 <= i < |chunks|
          ensures chunks[i].Arrived? && chunks[i].writeError.None?
        {
          if i > 0 {
            assert chunks[i] == chunks[1..][i - 1];
          }
        }
      }
    }
  }

  /** The running byte counts of a stream never decrease. */
  lemma ProgressNonDecreasing(info: DownloadInfo, total: Option<nat>, chunks: seq<Chunk>, d: nat, j: nat, k: nat)
    requires var s := Stream(info, total, chunks, d); j <= k < |s.events| - 1
    ensures var s := Stream(info, total, chunks, d);
            s.events[j].Progress? && s.events[k].Progress?
            && s.events[j].downloadedBytes <= s.events[k].downloadedBytes
  {
    StreamShape(info, total, chunks, d);
    ArrivedBytesMonotone(chunks, j + 1, k + 1);
  }

  lemma {:induction false} ArrivedBytesMonotone(chunks: seq<Chunk>, a: nat, b: nat)
    requires a <= b <= |chunks|
    ensures ArrivedBytes(chunks[..a]) <= ArrivedBytes(chunks[..b])
    decreases b
  {
    if a < b {
      ArrivedBytesMonotone(chunks, a, b - 1);
      ArrivedBytesSnoc(chunks[..b - 1], chunks[b - 1]);
      assert chunks[..b] == chunks[..b - 1] + [chunks[b - 1]];
    }
  }

  lemma {:induction false} ArrivedBytesSnoc(cs: seq<Chunk>, c: Chunk)
    ensures ArrivedBytes(cs + [c]) == ArrivedBytes(cs) + (if c.Arrived? then c.len else 0)
  {
    if cs != [] {
      assert (cs + [c])[1..] == cs[1..] + [c];
      ArrivedBytesSnoc(cs[1..], c);
    }
  }

  /** Exactly one terminal event, and it comes last. */
  predicate EndsWithOneTerminal(evs: seq<DownloadEvent>) {
    evs != [] && IsTerminal(evs[|evs| - 1]) && forall k :: 0 <= k < |evs| - 1 ==> !IsTerminal(evs[k])
  }

  lemma ConsNonTerminal(e: DownloadEvent, evs: seq<DownloadEvent>)
    requires !IsTerminal(e) && EndsWithOneTerminal(evs)
    ensures EndsWithOneTerminal([e] + evs)
    ensures ([e] + evs)[|evs|] == evs[|evs| - 1]
  {
    var all := [e] + evs;
    forall k | 0 <= k < |all| - 1
      ensures !IsTerminal(all[k])
    {
      if k > 0 {
        assert all[k] == evs[k - 1];
      }
    }
  }

  /** The lifecycle of one download: exactly one terminal event, which comes last, and
      the download succeeds exactly when that event is `Finished`. A request is sent
      unless making the directory failed. */
  lemma DownloadLifecycle(info: DownloadInfo, http: HttpScript, fs: FsScript)
    ensures var t := Download(info, http, fs);
            EndsWithOneTerminal(t.events)
            && (t.result.Ok? <==> t.events[|t.events| - 1].Finished?)
            && (t.result.Err? <==> t.events[|t.events| - 1].Failed?)
            && t.requests == (if MakesParentDir(info.outputPath) && fs.createDirError.Some? then [] else [info.url])
  {
    if !(MakesParentDir(info.outputPath) && fs.createDirError.Some?) && http.Responds?
       && IsSuccessStatus(http.status) && fs.createFileError.None? {
      var s := Stream(info, http.contentLength, http.chunks, 0);
      StreamEnds(info, http.contentLength, http.chunks, 0);
      var started := Started(info.resourceName, info.datasetName, info.url, info.outputPath, http.contentLength);
      assert Download(info, http, fs).events == [started] + s.events;
      ConsNonTerminal(started, s.events);
    }
  }

  /** A successful download reports `Started`, then one `Progress` per chunk with the
      running byte count, then `Finished`. */
  lemma DownloadSuccessEvents(info: DownloadInfo, http: HttpScript, fs: FsScript)
    requires Download(info, http, fs).result.Ok?
    ensures var t := Download(info, http, fs);
            http.Responds? && IsSuccessStatus(http.status) && AllWritten(http.chunks)
            && |t.events| == |http.chunks| + 2
            && t.events[0] == Started(info.resourceName, info.datasetName, info.url, info.outputPath, http.contentLength)
            && (forall k :: 1 <= k < |t.events| - 1 ==>
                  t.events[k] == Progress(info.resourceName, info.datasetName, info.outputPath,
                                          ArrivedBytes(http.chunks[..k]), http.contentLength))
            && t.events[|t.events| - 1] == Finished(info.resourceName, info.datasetName, info.outputPath)
  {
    var s := Stream(info, http.contentLength, http.chunks, 0);
    StreamShape(info, http.contentLength, http.chunks, 0);
    var t := Download(info, http, fs);
    assert t.events == [t.events[0]] + s.events;
    forall k | 1 <= k < |t.events| - 1
      ensures t.events[k] == Progress(info.resourceName, info.datasetName, info.outputPath,
                                      ArrivedBytes(http.chunks[..k]), http.contentLength)
    {
      assert t.events[k] == s.events[k - 1];
    }
    FinishedIsLast(info, http.contentLength, http.chunks, 0);
    assert t.events[|t.events| - 1] == s.events[|s.events| - 1];
  }

  /** A stream that ends well ends with `Finished` for the download's path. */
  lemma {:induction false} FinishedIsLast(info: DownloadInfo, total: Option<nat>, chunks: seq<Chunk>, d: nat)
    requires Stream(info, total, chunks, d).result.Ok?
    ensures var s := Stream(info, total, chunks, d);
            s.events != [] && s.events[|s.events| - 1] == Finished(info.resourceName, info.datasetName, info.outputPath)
    decreases |chunks|
  {
    if chunks != [] {
      FinishedIsLast(info, total, chunks[1..], d + chunks[0].len);
    }
  }

  /** A download succeeds exactly when the directory can be made, the request is
      sent, the status is 2xx, the file can be created and every chunk arrives and is
      written. */
  lemma DownloadSucceedsIff(info: DownloadInfo, http: HttpScript, fs: FsScript)
    ensures Download(info, http, fs).result.Ok? <==>
              (!MakesParentDir(info.outputPath) || fs.createDirError.None?)
              && http.Responds? && IsSuccessStatus(http.status)
              && fs.createFileError.None? && AllWritten(http.chunks)
  {
    if http.Responds? {
      StreamWritten(info, http.contentLength, http.chunks, 0);
    }
  }

  /** A status outside 200..=299 fails with `HTTP {status} while downloading {url}`
      and a single `Failed` event: nothing is started and no file is created. */
  lemma NonSuccessStatusFailsEarly(info: DownloadInfo, http: HttpScript, fs: FsScript)
    requires !MakesParentDir(info.outputPath) || fs.createDirError.None?
    requires http.Responds? && !IsSuccessStatus(http.status)
    ensures var t := Download(info, http, fs);
            var m := HttpFailureMessage(http.status, http.canonicalReason, info.url);
            t.result == Err(DownloadError(m))
            && t.events == [Failed(info.resourceName, info.datasetName, Some(info.outputPath), m)]
            && StartsWith(m, "HTTP " + NatToString(http.status) + " ")
  {
    var m := HttpFailureMessage(http.status, http.canonicalReason, info.url);
    var p := "HTTP " + NatToString(http.status) + " ";
    assert m == p + (http.canonicalReason.UnwrapOr("<unknown status code>") + " while downloading " + info.url);
    assert m[..|p|] == p;
  }

  // ---------------------------------------------------------------------------
  // Downloads of resources
  // ---------------------------------------------------------------------------

  const NoUrlMessage := "Resource has no URL"

  /** What downloading `r` to `out` does: a resource without a URL fails at once with one
      `Failed` event that names no path and sends no request; otherwise the download
      runs and yields `out`. */
  function Fetch(r: Resource, out: Path, datasetName: Option<string>,
                 net: string -> HttpScript, fs: Path -> FsScript): (t: Transcript<Path>)
    ensures r.url.None? ==> t.result == Err(ResourceNotFound(NoUrlMessage)) && t.requests == []
    ensures r.url.Some? ==> t.requests == [] || t.requests == [r.url.value]
    ensures t.result.Ok? ==> t.result.value == out
  {
    if r.url.None? then
      Transcript(Err(ResourceNotFound(NoUrlMessage)), [Failed(r.name, datasetName, None, NoUrlMessage)], [])
    else
      var url := r.url.value;
      var t := Download(DownloadInfo(r.name, datasetName, url, out), net(url), fs(out));
      Transcript(if t.result.Ok? then Ok(out) else Err(t.result.error), t.events, t.requests)
  }

  /** A resource without a URL: `ResourceNotFound`, one `Failed` event with no output
      path, no request. A resource with one: a request to its URL only when the
      directory can be made, and success yields the path. */
  lemma FetchOutcome(r: Resource, out: Path, datasetName: Option<string>,
                     net: string -> HttpScript, fs: Path -> FsScript)
    ensures var t := Fetch(r, out, datasetName, net, fs);
            (r.url.None? ==>
               t.result == Err(ResourceNotFound("Resource has no URL"))
               && t.events == [Failed(r.name, datasetName, None, "Resource has no URL")]
               && t.requests == [])
            && (r.url.Some? ==> t.requests == [] || t.requests == [r.url.value])
            && (t.result.Ok? ==> t.result.value == out)
            && EndsWithOneTerminal(t.events)
            && (t.result.Ok? <==> t.events[|t.events| - 1].Finished?)
  {
    if r.url.Some? {
      DownloadLifecycle(DownloadInfo(r.name, datasetName, r.url.value, out), net(r.url.value), fs(out));
    }
  }

  /** The file one slot of a batch goes to. */
  function SlotPath(dir: Path, r: Resource): Path {
    JoinPath(dir, ResourceFilename(r, None))
  }

  /** A resource name is used as the file name as it stands, so an absolute name such
      as `/tmp/x` replaces the download directory: the file lands outside it,
      whatever the directory. */
  lemma AbsoluteNameLeavesDirectory(dir: Path)
    ensures SlotPath(dir, Resource(None, Some("/tmp/x"), None, None, None, None, None)) == Path(["/", "tmp", "x"])
  {
    var name: string := "/tmp/x";
    assert ResourceFilename(Resource(None, Some(name), None, None, None, None, None), None) == name;
    assert IsAbsolutePath(name);
    JoinAbsoluteIgnoresDir(dir, dir, name);
    TmpXComponents();
  }

  lemma TmpXComponents()
    ensures Components("/tmp/x") == Path(["/", "tmp", "x"])
  {
    TmpXSegments();
    assert NormalParts(["", "tmp", "x"]) == ["tmp", "x"] by {
      assert ["", "tmp", "x"][1..] == ["tmp", "x"];
      assert ["tmp", "x"][1..] == ["x"];
      assert ["x"][1..] == [];
    }
  }

  lemma TmpXSegments()
    ensures SplitOn("/tmp/x", '/') == ["", "tmp", "x"]
  {
    TmpXTailSegments();
    assert "/tmp/x" == "" + ['/'] + "tmp/x";
    SplitOnFree("", '/', "tmp/x");
  }

  lemma TmpXTailSegments()
    ensures SplitOn("tmp/x", '/') == ["tmp", "x"]
  {
    SplitOnFree("x", '/', "");
    assert "tmp/x" == "tmp" + ['/'] + "x";
    SplitOnFree("tmp", '/', "x");
  }

  /** A relative resource name with a separator lands in a subdirectory of the
      download directory. */
  lemma NestedNameMakesSubdirectory(dir: Path)
    ensures SlotPath(dir, Resource(None, Some("a/b"), None, None, None, None, None)) == Path(dir.parts + ["a", "b"])
  {
    var name: string := "a/b";
    assert ResourceFilename(Resource(None, Some(name), None, None, None, None, None), None) == name;
    ABSegments();
    assert NormalParts(["a", "b"]) == ["a", "b"] by {
      assert ["a", "b"][1..] == ["b"];
      assert ["b"][1..] == [];
    }
    assert !IsAbsolutePath(name);
  }

  lemma ABSegments()
    ensures SplitOn("a/b", '/') == ["a", "b"]
  {
    SplitOnFree("b", '/', "");
    assert "a/b" == "a" + ['/'] + "b";
    SplitOnFree("a", '/', "b");
  }

  /** The slots of a batch, one per resource, in input order. */
  function Slots(rs: seq<Resource>, dir: Path, datasetName: Option<string>,
                 net: string -> HttpScript, fs: Path -> FsScript): (ts: seq<Transcript<Path>>)
    ensures |ts| == |rs|
    ensures forall i :: 0 <= i < |rs| && ts[i].result.Ok? ==> ts[i].result.value == SlotPath(dir, rs[i])
    ensures forall i :: 0 <= i < |rs| ==> ts[i].requests == [] || (rs[i].url.Some? && ts[i].requests == [rs[i].url.value])
  {
    seq(|rs|, i requires 0 <= i < |rs| => Fetch(rs[i], SlotPath(dir, rs[i]), datasetName, net, fs))
  }

  function ResultsOf(ts: seq<Transcript<Path>>): (rs: seq<Result<Path, DataGovError>>)
    ensures |rs| == |ts|
    ensures forall i :: 0 <= i < |ts| ==> rs[i] == ts[i].result
  {
    seq(|ts|, i requires 0 <= i < |ts| => ts[i].result)
  }

  function EventsOf(ts: seq<Transcript<Path>>): seq<DownloadEvent> {
    if ts == [] then [] else ts[0].events + EventsOf(ts[1..])
  }

  function RequestsOf(ts: seq<Transcript<Path>>): seq<string> {
    if ts == [] then [] else ts[0].requests + RequestsOf(ts[1..])
  }

  lemma {:induction false} OfSnoc(ts: seq<Transcript<Path>>, t: Transcript<Path>)
    ensures EventsOf(ts + [t]) == EventsOf(ts) + t.events
    ensures RequestsOf(ts + [t]) == RequestsOf(ts) + t.requests
  {
    if ts != [] {
      assert (ts + [t])[1..] == ts[1..] + [t];
      OfSnoc(ts[1..], t);
    }
  }

  /** The `Batch` event, reported before anything else, only for more than one
      resource. */
  function BatchAnnouncement(n: nat, datasetName: Option<string>): seq<DownloadEvent> {
    if n > 1 then [Batch(n, datasetName)] else []
  }

  /** Every request a batch sends goes to the URL of one of its resources, and a
      batch without resources sends none. */
  lemma {:induction false} BatchRequestsComeFromUrls(rs: seq<Resource>, dir: Path, datasetName: Option<string>,
                                                     net: string -> HttpScript, fs: Path -> FsScript)
    ensures forall u :: u in RequestsOf(Slots(rs, dir, datasetName, net, fs)) ==>
              exists i :: 0 <= i < |rs| && rs[i].url == Some(u)
    ensures rs == [] ==> RequestsOf(Slots(rs, dir, datasetName, net, fs)) == []
  {
    if rs != [] {
      var ts := Slots(rs, dir, datasetName, net, fs);
      BatchRequestsComeFromUrls(rs[1..], dir, datasetName, net, fs);
      assert ts[1..] == Slots(rs[1..], dir, datasetName, net, fs);
      FetchOutcome(rs[0], SlotPath(dir, rs[0]), datasetName, net, fs);
      forall u | u in RequestsOf(ts)
        ensures exists i :: 0 <= i < |rs| && rs[i].url == Some(u)
      {
        if u !in ts[0].requests {
          var i :| 0 <= i < |rs[1..]| && rs[1..][i].url == Some(u);
          assert rs[i + 1].url == Some(u);
        }
      }
    }
  }

  /** `CkanError` converted by `?` into `DataGovError`. */
  function FromCkan<T>(r: Result<T, CkanError>): (d: Result<T, DataGovError>)
    ensures d.Ok? <==> r.Ok?
    ensures r.Ok? ==> d.value == r.value
    ensures r.Err? ==> d.error == CkanFailure(r.error)
  {
    match r
    case Ok(v) => Ok(v)
    case Err(e) => Err(CkanFailure(e))
  }

  /** `DataGovClient`, over its CKAN client and its configuration. The status reporter
      is modelled by returning every event it would receive. */
  class DataGovClient {
    const ckan: Client
    const config: DataGovConfig

    constructor (config: DataGovConfig, ckan: Client)
      ensures this.config == config && this.ckan == ckan
    {
      this.config := config;
      this.ckan := ckan;
    }

    /** `search`: always sends the query, with the organization/format filter. */
    method Search<T>(query: string, limit: Option<i32>, offset: Option<i32>,
                     organization: Option<string>, format: Option<string>,
                     net: string -> HttpReply, decode: Json -> Result<T, string>)
      returns (url: string, r: Result<T, DataGovError>)
      ensures url == ActionUrl(ckan.basePath, "package_search",
                               Client.PackageSearchParams(Some(query), limit, offset, SearchFilter(organization, format)))
      ensures r == FromCkan(Classify(net(url), decode))
    {
      var fq := SearchFilter(organization, format);
      var result;
      url, result := ckan.PackageSearch(Some(query), limit, offset, fq, net, decode);
      r := FromCkan(result);
    }

    /** `get_dataset`: `package_show` of the id. */
    method GetDataset<T>(datasetId: string, net: string -> HttpReply, decode: Json -> Result<T, string>)
      returns (url: string, r: Result<T, DataGovError>)
      ensures url == ActionUrl(ckan.basePath, "package_show", [QueryParam("id", datasetId)])
      ensures r == FromCkan(Classify(net(url), decode))
    {
      var result;
      url, result := ckan.PackageShow(datasetId, net, decode);
      r := FromCkan(result);
    }

    /** `list_organizations`: `organization_list` with only a limit. */
    method ListOrganizations<T>(limit: Option<i32>, net: string -> HttpReply, decode: Json -> Result<T, string>)
      returns (url: string, r: Result<T, DataGovError>)
      ensures url == ActionUrl(ckan.basePath, "organization_list", Client.ListParams(None, limit, None))
      ensures r == FromCkan(Classify(net(url), decode))
    {
      var result;
      url, result := ckan.OrganizationList(None, limit, None, net, decode);
      r := FromCkan(result);
    }

    /** `perform_download`: make the parent directory, send the request, check the
        status, create the file, then write the chunks one by one, reporting the
        running byte count after each. */
    static method PerformDownload(info: DownloadInfo, http: HttpScript, fs: FsScript)
      returns (t: Transcript<Unit>)
      ensures t == Download(info, http, fs)
    {
      if MakesParentDir(info.outputPath) && fs.createDirError.Some? {
        var e := fs.createDirError.value;
        return Transcript(Err(IoError(e)), [Failure(info, e)], []);
      }
      if http.SendFails? {
        return Transcript(Err(HttpError(http.reason)), [Failure(info, http.reason)], [info.url]);
      }
      var status := http.status;
      if !IsSuccessStatus(status) {
        var message := HttpFailureMessage(status, http.canonicalReason, info.url);
        return Transcript(Err(DownloadError(message)), [Failure(info, message)], [info.url]);
      }
      var total := http.contentLength;
      var started := Started(info.resourceName, info.datasetName, info.url, info.outputPath, total);
      if fs.createFileError.Some? {
        var e := fs.createFileError.value;
        return Transcript(Err(IoError(e)), [started, Failure(info, e)], [info.url]);
      }
      var s := WriteBody(info, total, http.chunks);
      t := Transcript(s.result, [started] + s.events, [info.url]);
    }

    /** The write loop of `perform_download`: each chunk is written as it arrives and
        the running byte count is reported after it; the first failed chunk ends the
        download. */
    static method WriteBody(info: DownloadInfo, total: Option<nat>, chunks: seq<Chunk>)
      returns (s: StreamOutcome)
      ensures s == Stream(info, total, chunks, 0)
    {
      var progress: seq<DownloadEvent> := [];
      var downloaded: nat := 0;
      var i := 0;
      assert chunks[0..] == chunks;
      while i < |chunks|
        invariant 0 <= i <= |chunks|
        invariant Resumes(info, total, chunks, i, downloaded, progress)
      {
        var chunk := chunks[i];
        if chunk.StreamFailed? {
          ResumeFailed(info, total, chunks, i, downloaded, progress);
          return StreamOutcome(Err(HttpError(chunk.reason)), progress + [Failure(info, chunk.reason)]);
        }
        if chunk.writeError.Some? {
          ResumeFailed(info, total, chunks, i, downloaded, progress);
          var e := chunk.writeError.value;
          return StreamOutcome(Err(IoError(e)), progress + [Failure(info, e)]);
        }
        ResumeWritten(info, total, chunks, i, downloaded, progress);
        downloaded := downloaded + chunk.len;
        var event := Progress(info.resourceName, info.datasetName, info.outputPath, downloaded, total);
        progress := progress + [event];
        i := i + 1;
      }
      ResumeEnd(info, total, chunks, downloaded, progress);
      s := StreamOutcome(Ok(Unit), progress + [Finished(info.resourceName, info.datasetName, info.outputPath)]);
    }

    /** One resource to one path: the no-URL check, then the download. */
    static method FetchOne(r: Resource, out: Path, datasetName: Option<string>,
                           net: string -> HttpScript, fs: Path -> FsScript)
      returns (t: Transcript<Path>)
      ensures t == Fetch(r, out, datasetName, net, fs)
    {
      if r.url.None? {
        return Transcript(Err(ResourceNotFound(NoUrlMessage)), [Failed(r.name, datasetName, None, NoUrlMessage)], []);
      }
      var url := r.url.value;
      var d := PerformDownload(DownloadInfo(r.name, datasetName, url, out), net(url), fs(out));
      t := Transcript(if d.result.Ok? then Ok(out) else Err(d.result.error), d.events, d.requests);
    }

    /** `download_dataset_resource`: into the dataset's directory. */
    method DownloadDatasetResource(r: Resource, datasetName: string,
                                   net: string -> HttpScript, fs: Path -> FsScript)
      returns (t: Transcript<Path>)
      ensures t == Fetch(r, SlotPath(config.datasetDownloadDir(datasetName), r), Some(datasetName), net, fs)
    {
      var datasetDir := config.datasetDownloadDir(datasetName);
      var filename := ResourceFilename(r, None);
      var outputPath := JoinPath(datasetDir, filename);
      t := FetchOne(r, outputPath, Some(datasetName), net, fs);
    }

    /** `download_resource`: to the given path, or into the base directory. */
    method DownloadResource(r: Resource, outputPath: Option<Path>,
                            net: string -> HttpScript, fs: Path -> FsScript)
      returns (t: Transcript<Path>)
      ensures t == Fetch(r, outputPath.UnwrapOr(SlotPath(config.baseDownloadDir, r)), None, net, fs)
    {
      if r.url.None? {
        return Transcript(Err(ResourceNotFound(NoUrlMessage)), [Failed(r.name, None, None, NoUrlMessage)], []);
      }
      var out: Path;
      if outputPath.Some? {
        out := outputPath.value;
      } else {
        var filename := ResourceFilename(r, None);
        out := JoinPath(config.baseDownloadDir, filename);
      }
      t := FetchOne(r, out, None, net, fs);
    }

    /** The loop both batch downloads share: one slot per resource, in order. */
    static method FetchAll(rs: seq<Resource>, dir: Path, datasetName: Option<string>,
                           net: string -> HttpScript, fs: Path -> FsScript)
      returns (results: seq<Result<Path, DataGovError>>, events: seq<DownloadEvent>, requests: seq<string>)
      ensures var ts := Slots(rs, dir, datasetName, net, fs);
              results == ResultsOf(ts) && events == EventsOf(ts) && requests == RequestsOf(ts)
    {
      ghost var ts := Slots(rs, dir, datasetName, net, fs);
      results, events, requests := [], [], [];
      for i := 0 to |rs|
        invariant results == ResultsOf(ts[..i])
        invariant events == EventsOf(ts[..i]) && requests == RequestsOf(ts[..i])
      {
        var filename := ResourceFilename(rs[i], None);
        var out := JoinPath(dir, filename);
        assert out == SlotPath(dir, rs[i]);
        var t := FetchOne(rs[i], out, datasetName, net, fs);
        assert t == ts[i];
        PrefixSnoc(ts, i);
        OfSnoc(ts[..i], t);
        results := results + [t.result];
        events := events + t.events;
        requests := requests + t.requests;
      }
      assert ts[..|rs|] == ts;
    }

    /** `download_resources`: one result per resource, in input order, every resource
        going into `outputDir` (or the base directory); a `Batch` event first when
        there is more than one. */
    method DownloadResources(rs: seq<Resource>, outputDir: Option<Path>,
                             net: string -> HttpScript, fs: Path -> FsScript)
      returns (results: seq<Result<Path, DataGovError>>, events: seq<DownloadEvent>, requests: seq<string>)
      ensures var ts := Slots(rs, outputDir.UnwrapOr(config.baseDownloadDir), None, net, fs);
              results == ResultsOf(ts)
              && events == BatchAnnouncement(|rs|, None) + EventsOf(ts)
              && requests == RequestsOf(ts)
    {
      if |rs| > 1 {
        var dir := outputDir.UnwrapOr(config.baseDownloadDir);
        var es;
        results, es, requests := FetchAll(rs, dir, None, net, fs);
        events := [Batch(|rs|, None)] + es;
      } else if |rs| == 1 {
        var out: Option<Path> := None;
        if outputDir.Some? {
          out := Some(SlotPath(outputDir.value, rs[0]));
        }
        var t := DownloadResource(rs[0], out, net, fs);
        ghost var ts := Slots(rs, outputDir.UnwrapOr(config.baseDownloadDir), None, net, fs);
        assert ts == [t];
        assert ts[1..] == [];
        results, events, requests := [t.result], t.events, t.requests;
        assert events == t.events + [];
        assert requests == t.requests + [];
      } else {
        results, events, requests := [], [], [];
      }
    }

    /** `download_dataset_resources`: as `DownloadResources`, with the dataset named in
        every event. A batch writes under the base directory joined with the dataset
        name; a single resource goes through `download_dataset_resource` and so into
        the configured dataset directory. */
    method DownloadDatasetResources(rs: seq<Resource>, datasetName: string,
                                    net: string -> HttpScript, fs: Path -> FsScript)
      returns (results: seq<Result<Path, DataGovError>>, events: seq<DownloadEvent>, requests: seq<string>)
      ensures var dir := if |rs| > 1 then JoinPath(config.baseDownloadDir, datasetName)
                         else config.datasetDownloadDir(datasetName);
              var ts := Slots(rs, dir, Some(datasetName), net, fs);
              results == ResultsOf(ts)
              && events == BatchAnnouncement(|rs|, Some(datasetName)) + EventsOf(ts)
              && requests == RequestsOf(ts)
    {
      if |rs| > 1 {
        var dir := JoinPath(config.baseDownloadDir, datasetName);
        var es;
        results, es, requests := FetchAll(rs, dir, Some(datasetName), net, fs);
        events := [Batch(|rs|, Some(datasetName))] + es;
      } else if |rs| == 1 {
        var t := DownloadDatasetResource(rs[0], datasetName, net, fs);
        ghost var ts := Slots(rs, config.datasetDownloadDir(datasetName), Some(datasetName), net, fs);
        assert ts == [t];
        assert ts[1..] == [];
        results, events, requests := [t.result], t.events, t.requests;
        assert events == t.events + [];
        assert requests == t.requests + [];
      } else {
        results, events, requests := [], [], [];
      }
    }
  }

  /** A batch has one result per resource, in input order, and its `i`-th result is
      what downloading the `i`-th resource alone to its slot yields; in particular a
      resource without a URL gets `ResourceNotFound`. */
  lemma BatchSlots(rs: seq<Resource>, dir: Path, datasetName: Option<string>,
                   net: string -> HttpScript, fs: Path -> FsScript, i: nat)
    requires i < |rs|
    ensures var results := ResultsOf(Slots(rs, dir, datasetName, net, fs));
            |results| == |rs|
            && results[i] == Fetch(rs[i], SlotPath(dir, rs[i]), datasetName, net, fs).result
            && (rs[i].url.None? ==> results[i] == Err(ResourceNotFound("Resource has no URL")))
            && (results[i].Ok? ==> results[i].value == SlotPath(dir, rs[i]))
  {
    FetchOutcome(rs[i], SlotPath(dir, rs[i]), datasetName, net, fs);
  }

  /** The `Batch` event comes once, first, exactly when there is more than one
      resource; an empty batch reports nothing. */
  lemma BatchAnnouncementOnce(rs: seq<Resource>, dir: Path, datasetName: Option<string>,
                              net: string -> HttpScript, fs: Path -> FsScript)
    ensures var evs := BatchAnnouncement(|rs|, datasetName) + EventsOf(Slots(rs, dir, datasetName, net, fs));
            (|rs| > 1 <==> evs != [] && evs[0].Batch?)
            && (rs == [] ==> evs == [])
            && (forall k :: 0 < k < |evs| ==> !evs[k].Batch?)
  {
    NoBatchEvents(rs, dir, datasetName, net, fs);
  }

  /** Downloads of single resources never report `Batch`. */
  lemma {:induction false} NoBatchEvents(rs: seq<Resource>, dir: Path, datasetName: Option<string>,
                                         net: string -> HttpScript, fs: Path -> FsScript)
    ensures forall k :: 0 <= k < |EventsOf(Slots(rs, dir, datasetName, net, fs))| ==>
              !EventsOf(Slots(rs, dir, datasetName, net, fs))[k].Batch?
  {
    if rs != [] {
      var ts := Slots(rs, dir, datasetName, net, fs);
      assert ts[1..] == Slots(rs[1..], dir, datasetName, net, fs);
      NoBatchEvents(rs[1..], dir, datasetName, net, fs);
      FetchNoBatch(rs[0], SlotPath(dir, rs[0]), datasetName, net, fs);
      var e := EventsOf(ts);
      assert e == ts[0].events + EventsOf(ts[1..]);
      forall k | 0 <= k < |e|
        ensures !e[k].Batch?
      {
        if k >= |ts[0].events| {
          assert e[k] == EventsOf(ts[1..])[k - |ts[0].events|];
        }
      }
    }
  }

  lemma FetchNoBatch(r: Resource, out: Path, datasetName: Option<string>,
                     net: string -> HttpScript, fs: Path -> FsScript)
    ensures forall k :: 0 <= k < |Fetch(r, out, datasetName, net, fs).events| ==>
              !Fetch(r, out, datasetName, net, fs).events[k].Batch?
  {
    if r.url.Some? {
      var info := DownloadInfo(r.name, datasetName, r.url.value, out);
      var http := net(r.url.value);
      if http.Responds? {
        StreamShape(info, http.contentLength, http.chunks, 0);
      }
    }
  }
}
