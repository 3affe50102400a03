# data-gov-rs in Dafny

A model of the decision logic of `data-gov-rs`, a Rust client for the data.gov
CKAN catalogue, together with proofs about it. The repository has three layers,
and each is modelled once the network, the filesystem, JSON decoding and the
terminal are replaced by explicit inputs:

- **The CKAN client** (`CkanClient`, `ckan_client.dfy`). It builds the request
  URL of each action endpoint and classifies each reply into a value or a
  `CkanError`. The URL builders are methods that push parameters in order, just
  as the source pushes onto its `Vec`s. The proofs show that every URL reads back
  as exactly its parameters, in order, with a `?` only when there are some.
- **The data.gov client** (`DataGov`, `datagov_client.dfy`, with its types in
  `datagov_types.dfy`). It does resource selection and file naming, the search
  filter, and the `perform_download` state machine. A scripted HTTP response
  stands in for the network: a send error, or a status with an optional content
  length and a list of chunks, each of which may fail on the stream or on the
  write. A scripted filesystem answer stands in for directory and file creation.
  The batch downloads are modelled as well. The chunk loop is a method proved
  against a function of the script. The lemmas on that function state the event
  lifecycle `Started → Progress* → Finished | Failed` and the running byte count.
- **The JSON-RPC server** (`McpServer`, `mcp_server.dfy`). It holds:
  - the method table, the tool table and `dispatch`;
  - the parameter rules;
  - the mapping from errors to response codes;
  - the response shape;
  - the whole `data_gov.downloadResources` tool: the id and format filters, the
    checks in their order, the downloads and the summary.
- **The command-line tool** (`Repl` in `repl.dfy`, `Colors` in `colors.dfy`):
  - the REPL command parser;
  - the line-skip rule and the read loop;
  - CLI-mode command joining;
  - the Download and List branches of `execute_command`;
  - the colour-mode, `NO_COLOR` and terminal decision;
  - the styling builders.

`wrappers.dfy` holds `Option`/`Result`. `seqs.dfy` holds filters, subsequences
and counts. `strings.dfy` models the Rust string operations the source relies on:
- `trim` and `split_whitespace` over Unicode White_Space;
- ASCII lower-casing;
- `join`;
- decimal rendering and `FromStr` for `i32` and `usize`;
- `urlencoding::encode`, which percent-encodes the UTF-8 bytes of everything
  outside the unreserved set.

## Model

| member | source | states |
|---|---|---|
| CkanClient.CkanErrorText | data-gov-ckan/src/client.rs:177-187 | each variant's text ends with the reason or message it carries |
| CkanClient.ApiErrorTextShowsBoth | data-gov-ckan/src/client.rs:182-184 | the rendered `ApiError` contains both the decimal status and the message |
| CkanClient.CkanErrorTextInjective | data-gov-ckan/src/client.rs:177-187 | distinct errors render to distinct texts |
| CkanClient.ApiErrorTextInjective | data-gov-ckan/src/client.rs:182-184 | two `ApiError` texts are equal only when status and message are |
| CkanClient.ActionUrl | data-gov-ckan/src/client.rs:369-380 | every URL starts with `base/action/<name>`; it goes on, with a `?` right after the endpoint, exactly when there are parameters |
| CkanClient.PresentSpec | data-gov-ckan/src/client.rs:351-366 | an optional parameter is sent exactly when its value is present; the query is empty when none is |
| CkanClient.PresentInOrder | data-gov-ckan/src/client.rs:351-366 | the parameters sent keep the fixed order of the builder |
| CkanClient.EncodePairReadsBack | data-gov-ckan/src/client.rs:374-378 | an encoded `k=encode(v)` pair holds no `&` and splits at `=` into its key and encoded value |
| CkanClient.SplitPairsAtAmpersand | data-gov-ckan/src/client.rs:374-378 | the `&`-joined pairs split at `&` back into the pairs |
| CkanClient.ActionUrlReadsBack | data-gov-ckan/src/client.rs:369-380 | the query of every request URL reads back as exactly its parameters, in order, each value encoded |
| CkanClient.PlainTextNeedsNoEncoding | data-gov-ckan/src/client.rs:808-812 | integers and booleans print as text that encoding leaves unchanged, so plain and encoded pushes agree |
| CkanClient.Classify | data-gov-ckan/src/client.rs:383-428 | a value exactly for a 2xx reply whose envelope decodes with `success` and a result that decodes; `ParseError` only from that last decode; `RequestError` only from the transport or the envelope; `ApiError` carries the HTTP status, or 400/500 on a 2xx reply; each case with the source's message |
| CkanClient.Client.constructor | data-gov-ckan/src/client.rs:236-238 | the client keeps its base path |
| CkanClient.Client.WithQuery | data-gov-ckan/src/client.rs:372-380 | appends `?` and the `&`-joined parts only when there are parts |
| CkanClient.Client.PackageSearch | data-gov-ckan/src/client.rs:343-428 | the URL of `package_search` with q, rows, start, fq as given; the result is the classified reply |
| CkanClient.Client.PackageShow | data-gov-ckan/src/client.rs:525-578 | the URL is `package_show?id=encode(id)`; the result is the classified reply |
| CkanClient.Client.ListAction | data-gov-ckan/src/client.rs:581-659 | the listing URL with sort, limit, offset, each when given; the result is the classified reply |
| CkanClient.Client.OrganizationList | data-gov-ckan/src/client.rs:581-659 | `ListAction` on `organization_list` |
| CkanClient.Client.GroupList | data-gov-ckan/src/client.rs:662-740 | `ListAction` on `group_list` |
| CkanClient.Client.AutocompleteQuery | data-gov-ckan/src/client.rs:873-893 | the pushed texts are the present autocomplete parameters, q and vocabulary_id encoded and limit and ignore_self plain |
| CkanClient.Client.PushEncodedIfSome | data-gov-ckan/src/client.rs:807-809 | a present text value is pushed as `key=encode(value)`, an absent one adds nothing |
| CkanClient.Client.PushPlainIfSome | data-gov-ckan/src/client.rs:810-812 | a present number or boolean is pushed as its plain text, an absent one adds nothing |
| CkanClient.Client.Autocomplete | data-gov-ckan/src/client.rs:798-864 | the URL of the autocomplete action with its present parameters; the result is the classified reply |
| CkanClient.Client.DatasetAutocomplete | data-gov-ckan/src/client.rs:798-864 | `package_autocomplete` with q and limit |
| CkanClient.Client.TagAutocomplete | data-gov-ckan/src/client.rs:867-940 | `tag_autocomplete` with q, limit and vocabulary_id |
| CkanClient.Client.UserAutocomplete | data-gov-ckan/src/client.rs:943-1013 | `user_autocomplete` with q, limit and ignore_self |
| CkanClient.Client.GroupAutocomplete | data-gov-ckan/src/client.rs:1064-1130 | `group_autocomplete` with q and limit |
| CkanClient.Client.OrganizationAutocomplete | data-gov-ckan/src/client.rs:1133-1199 | `organization_autocomplete` with q and limit |
| CkanClient.Client.ResourceFormatAutocomplete | data-gov-ckan/src/client.rs:1202-1268 | the action is `format_autocomplete`, with q and limit |
| CkanClient.PackageSearchQuery | data-gov-ckan/src/client.rs:351-380 | the `package_search` query reads back as q, rows, start, fq, in that order, each exactly when given |
| CkanClient.PackageShowQuery | data-gov-ckan/src/client.rs:527-531 | `package_show` always has a query, and it holds exactly the encoded id |
| CkanClient.ListQuery | data-gov-ckan/src/client.rs:588-612 | the listing endpoints read back as sort, limit, offset, each exactly when given |
| CkanClient.SpecsQuery | data-gov-ckan/src/client.rs:803-817 | an endpoint's query reads back as exactly the present parameters of its list, in order |
| DataGovTypes.JoinPath | data-gov/src/client.rs:219 | an absolute name replaces the directory and starts at the root; a relative one stays below the directory; a single name becomes the directory's child; an empty name leaves the directory |
| DataGovTypes.JoinAbsoluteIgnoresDir | data-gov/src/client.rs:219 | an absolute name gives the same path whatever directory it is joined onto |
| DataGov.SearchFilter | data-gov/src/client.rs:98-106 | there is a filter exactly when an organization or a format is given |
| DataGov.SearchFilterShape | data-gov/src/client.rs:98-106 | the filter opens with the organization clause when one is given and closes with the format clause when one is given; with both they are joined by ` AND `; an organization alone gives exactly `organization:"O"` and a format alone exactly `res_format:"F"` |
| DataGov.GetDownloadableResources | data-gov/src/client.rs:157-171 | keeps exactly the resources that have a URL, a `url_type` other than `api` and a format, in their order; a missing list gives none |
| DataGov.LastSegment | data-gov/src/client.rs:188-196 | the last path segment holds no `/` and ends the path, right after a `/` |
| DataGov.UrlLastSegment | data-gov/src/client.rs:188-190 | a segment found holds no `/` |
| DataGov.ResourceFilename | data-gov/src/client.rs:174-204 | a named resource's file name starts with its name; without a name it is non-empty and holds a dot |
| DataGov.UnnamedFilename | data-gov/src/client.rs:187-204 | without a name, the URL's last path segment when it is non-empty and has a dot; otherwise the fallback (or `data`) with the lower-cased format as extension, or `.dat` without a format |
| DataGov.NamedFilename | data-gov/src/client.rs:176-185 | a name without format is kept verbatim; with a format it gets `.` plus the lower-cased format unless it already ends so |
| DataGov.NamedFilenameIgnoresUrl | data-gov/src/client.rs:176-185 | when the name is present, neither the URL nor the fallback is consulted |
| DataGov.SuffixTestIsCaseSensitive | data-gov/src/client.rs:178-181 | `R.CSV` with format `CSV` becomes `R.CSV.csv` |
| DataGov.UrlLastSegmentOfParts | data-gov/src/client.rs:188-190 | for `scheme://host/path` the segment is the last segment of the path |
| DataGov.TrailingSlashFallsBack | data-gov/src/client.rs:188-204 | a URL ending in `/` yields an empty segment, so an unnamed resource falls back to `data.<format>` |
| DataGov.Stream | data-gov/src/client.rs:536-571 | at least one event, and at most one per chunk plus the terminal one |
| DataGov.StreamShape | data-gov/src/client.rs:536-571 | the stream reports one `Progress` per written chunk and then one terminal event |
| DataGov.StreamProgress | data-gov/src/client.rs:536-562 | the k-th `Progress` carries the bytes of the first k+1 chunks |
| DataGov.StreamEnds | data-gov/src/client.rs:536-571 | the stream ends with exactly one terminal event |
| DataGov.StreamWritten | data-gov/src/client.rs:536-571 | the stream succeeds exactly when every chunk arrives and is written |
| DataGov.ProgressNonDecreasing | data-gov/src/client.rs:536-562 | the reported byte counts never decrease |
| DataGov.Download | data-gov/src/client.rs:470-574 | at least one event; at most one request, to the resource's own URL; success needs a 2xx response and a created file |
| DataGov.DownloadLifecycle | data-gov/src/client.rs:470-574 | exactly one terminal event, and it is last; success iff `Finished`, failure iff `Failed`; a request is sent unless making the directory failed |
| DataGov.DownloadSuccessEvents | data-gov/src/client.rs:506-571 | a success is `Started`, one `Progress` per chunk carrying the running byte count, then `Finished` |
| DataGov.DownloadSucceedsIff | data-gov/src/client.rs:491-571 | success iff the parent directory is made (when there is a non-empty one), the response arrives, the status is 2xx, the file is created and every chunk arrives and is written |
| DataGov.NonSuccessStatusFailsEarly | data-gov/src/client.rs:506-510 | a non-2xx status fails with `HTTP {status} ... while downloading {url}` and a single `Failed`, before any `Started` or file creation |
| DataGov.Fetch | data-gov/src/client.rs:221-246 | a resource without URL gives `ResourceNotFound` and sends no request; one with a URL requests at most that URL; success yields the output path |
| DataGov.FetchOutcome | data-gov/src/client.rs:221-235 | a resource without URL gives `ResourceNotFound("Resource has no URL")`, one `Failed` without path and no request; otherwise at most its own URL is requested, and success yields the output path |
| DataGov.Slots | data-gov/src/client.rs:322-362 | one transcript per resource; a slot that succeeds yields that resource's slot path, and a slot requests at most its own resource's URL |
| DataGov.AbsoluteNameLeavesDirectory | data-gov/src/client.rs:348-349 | a resource named `/tmp/x` is written to `/tmp/x`, whatever the download directory |
| DataGov.NestedNameMakesSubdirectory | data-gov/src/client.rs:348-349 | a resource named `a/b` is written to `b` in the subdirectory `a` of the download directory |
| DataGov.BatchRequestsComeFromUrls | data-gov/src/client.rs:303-367 | every request of a batch goes to the URL of one of its resources; an empty batch requests nothing |
| DataGov.FromCkan | data-gov/src/error.rs:8-10 | a CKAN error becomes `DataGovError::Ckan`, an `Ok` is kept |
| DataGov.DataGovClient.constructor | data-gov/src/client.rs:39-60 | the client keeps its configuration and its CKAN client |
| DataGov.DataGovClient.Search | data-gov/src/client.rs:89-114 | `package_search` with `Some(query)`, limit, offset and the built filter |
| DataGov.DataGovClient.GetDataset | data-gov/src/client.rs:117-120 | `package_show` of the id |
| DataGov.DataGovClient.ListOrganizations | data-gov/src/client.rs:133-136 | `organization_list` with only the limit |
| DataGov.DataGovClient.PerformDownload | data-gov/src/client.rs:470-574 | equals `Download` of the scripts |
| DataGov.DataGovClient.WriteBody | data-gov/src/client.rs:536-571 | the chunk loop equals `Stream` of the chunks from a zero byte count |
| DataGov.DataGovClient.FetchOne | data-gov/src/client.rs:221-246 | the no-URL check, then the download |
| DataGov.DataGovClient.DownloadDatasetResource | data-gov/src/client.rs:212-248 | downloads into the configured dataset directory, naming the dataset in the events |
| DataGov.DataGovClient.DownloadResource | data-gov/src/client.rs:253-293 | downloads to the given path, or into the base directory under the resource's file name |
| DataGov.DataGovClient.FetchAll | data-gov/src/client.rs:303-367 | one slot per resource, in input order |
| DataGov.DataGovClient.DownloadResources | data-gov/src/client.rs:298-382 | one result per resource in input order into the output or base directory; `Batch` first only for more than one; an empty input gives nothing |
| DataGov.DataGovClient.DownloadDatasetResources | data-gov/src/client.rs:387-464 | as `DownloadResources`, naming the dataset; a batch goes to `base/<dataset>`, a single resource to the dataset directory |
| DataGov.BatchSlots | data-gov/src/client.rs:303-367 | the i-th result is the outcome of downloading the i-th resource alone to its slot; a URL-less one gets `ResourceNotFound` |
| DataGov.BatchAnnouncementOnce | data-gov/src/client.rs:303-314 | `Batch` is reported once, first, exactly when there is more than one resource; an empty batch reports nothing |
| DataGov.NoBatchEvents | data-gov/src/client.rs:470-574 | single downloads never report `Batch` |
| McpServer.ToolSpecs | data-gov-mcp-server/src/server.rs:828-946 | eight tools, each running one of the advertised methods |
| McpServer.FindFirst | data-gov-mcp-server/src/server.rs:818-826 | the first matching spec, or `None` exactly when none matches |
| McpServer.ToolMethodsAdvertised | data-gov-mcp-server/src/server.rs:828-946 | eight tools, whose methods are, in order, the advertised methods after the four protocol methods |
| McpServer.ToolMethodsAreTheApiMethods | data-gov-mcp-server/src/server.rs:822-826 | a method is served as a tool exactly when it is one of the eight API methods |
| McpServer.ToolLookupFindsItself | data-gov-mcp-server/src/server.rs:818-826 | looking a tool up by its name or by its method finds it |
| McpServer.ToolNamesDistinct | data-gov-mcp-server/src/server.rs:828-946 | no two tools share a name |
| McpServer.MethodsDistinct | data-gov-mcp-server/src/server.rs:14-27 | no method is advertised twice |
| McpServer.HandledIffAdvertised | data-gov-mcp-server/src/server.rs:171-471 | `invoke_method` handles exactly the advertised methods; `tools/call` is handled only by `dispatch` |
| McpServer.ServerErrorText | data-gov-mcp-server/src/server.rs:572-589 | the text of each variant that carries a message ends with it |
| McpServer.ToResponseError | data-gov-mcp-server/src/server.rs:524-569 | the code and message of each variant: -32600, -32601 with `Unknown method: {m}`, -32602, -32700, -32020, -32010, -32011, -32603; no data |
| McpServer.ErrorCodesIdentifyVariant | data-gov-mcp-server/src/server.rs:524-569 | codes are equal exactly when the variants are; each code is a JSON-RPC predefined code or lies in the server-error range |
| McpServer.ResponseMessageAndDisplay | data-gov-mcp-server/src/server.rs:524-589 | how the response message relates to the error's `Display` text, variant by variant |
| McpServer.ResponseShape | data-gov-mcp-server/src/server.rs:137-142 | every response carries `"jsonrpc": "2.0"` and the request id, and exactly one of `result` (the value) and `error` (with the failure's code) |
| McpServer.ParseRequired | data-gov-mcp-server/src/server.rs:593-604 | absent parameters give `InvalidParams("{method}: missing parameters")`; otherwise the decode, with its error prefixed by the method |
| McpServer.ParseOptional | data-gov-mcp-server/src/server.rs:606-615 | absent parameters give the default; otherwise as `ParseRequired` |
| McpServer.ParamsRulesAgree | data-gov-mcp-server/src/server.rs:593-615 | the two rules agree on present parameters and differ only on absent ones |
| McpServer.WrappedToolResult | data-gov-mcp-server/src/server.rs:786-796 | a tool result has no `isError` and the content `[text, json]` |
| McpServer.InvokeMethod | data-gov-mcp-server/src/server.rs:166-473 | unknown methods give `InvalidMethod`; `initialized`/`shutdown` give `null`; required parameters missing give `InvalidParams`; absent optional ones run with the default |
| McpServer.Dispatch | data-gov-mcp-server/src/server.rs:145-164 | only `tools/call` and the advertised methods can succeed |
| McpServer.DispatchToolsCall | data-gov-mcp-server/src/server.rs:145-155 | `tools/call` needs parameters and a known tool name (else `InvalidMethod(name)`), and runs that tool's method on the arguments, answered as a tool |
| McpServer.DispatchDirect | data-gov-mcp-server/src/server.rs:157-164 | other methods: unknown gives `InvalidMethod`, protocol methods answer unwrapped, API methods answer as tools |
| McpServer.KeepWhere | data-gov-mcp-server/src/server.rs:275-281 | the in-place `retain` keeps, in order, exactly the elements that pass the test |
| McpServer.FilterStep | data-gov-mcp-server/src/server.rs:244-305 | the kept resources are a subsequence of the input; without entries nothing is reported, with entries the reported ones are a subsequence of the trimmed entries |
| McpServer.ApplyFilter | data-gov-mcp-server/src/server.rs:244-282 | one filter as the server runs it equals the specification `FilterStep` |
| McpServer.Select | data-gov-mcp-server/src/server.rs:242-319 | the selection is a subsequence of the downloadable resources; without ids no id is missing, without formats no format is unavailable |
| McpServer.SelectResources | data-gov-mcp-server/src/server.rs:242-319 | the id filter, then the format filter over what it kept, equals `Select` |
| McpServer.SelectionMembership | data-gov-mcp-server/src/server.rs:244-319 | a resource is selected iff it is downloadable, its id matches a requested id (when ids are given) and its format a requested format (when formats are given), after trimming and lower-casing |
| McpServer.StepMembership | data-gov-mcp-server/src/server.rs:275-281 | a filter keeps a resource iff its attribute matches a requested entry; resources without the attribute are dropped |
| McpServer.MissingIds | data-gov-mcp-server/src/server.rs:264-268 | the missing ids are, in request order, the trimmed requested ids that no downloadable resource carries |
| McpServer.UnavailableFormats | data-gov-mcp-server/src/server.rs:301-305 | the unavailable formats are the trimmed requested formats that no resource kept by the id filter carries |
| McpServer.NoMatchMessage | data-gov-mcp-server/src/server.rs:321-338 | the message starts with the fixed prefix and is the prefix alone exactly when nothing is missing or unavailable |
| McpServer.NoMatchMessageShape | data-gov-mcp-server/src/server.rs:321-338 | the missing-ids part follows the prefix only when there are missing ids; the unavailable-formats part ends the message only when there are unavailable formats |
| McpServer.Summarize | data-gov-mcp-server/src/server.rs:375-407 | one entry per (resource, result) pair, in order; successes counted; successes plus errors equal the entries |
| McpServer.ResolveOutputDir | data-gov-mcp-server/src/server.rs:344-356 | no directory without `outputDir`; an error exactly for a relative directory when the working directory is unknown; an absolute directory stays at the root; a relative one lies below the working directory; otherwise the directory, resolved against the working directory when relative, joined with the dataset slug exactly when `datasetSubdirectory` is true |
| McpServer.DatasetSubdirectory | data-gov-mcp-server/src/server.rs:344-353 | with `datasetSubdirectory` true, a one-name slug is a child of the directory resolved without it; unset behaves as false |
| McpServer.PlanDownload | data-gov-mcp-server/src/server.rs:221-361 | a plan needs the dataset and a non-empty selection, and, without an explicit output directory, a download directory that passed validation |
| McpServer.PlanOutcomes | data-gov-mcp-server/src/server.rs:221-361 | a plan goes ahead only with a non-empty selection in download order and an output directory iff one was given; an explicit empty id list and an empty selection are rejected with `InvalidParams` |
| McpServer.Server.constructor | data-gov-mcp-server/src/server.rs:40-69 | the server keeps its data.gov client |
| McpServer.Server.MakePlan | data-gov-mcp-server/src/server.rs:221-361 | the checks in order equal `PlanDownload` |
| McpServer.Server.Deliver | data-gov-mcp-server/src/server.rs:363-443 | downloads one slot per selected resource into the plan's destination; the summary's counts agree, with one entry per resource, the dataset fields, and the optional lists only when non-empty |
| McpServer.Server.DownloadResourcesTool | data-gov-mcp-server/src/server.rs:220-444 | fetches the dataset, then either the plan's error with nothing downloaded, or the delivered plan |
| Colors.ParseColorMode | data-gov/src/colors.rs:23-30 | accepts exactly the three names after lower-casing; the error quotes the text as given |
| Colors.ParseModeName | data-gov/src/colors.rs:23-30 | every mode's name parses back to it |
| Colors.ParseIgnoresCase | data-gov/src/colors.rs:24 | texts equal after lower-casing parse alike |
| Colors.ColorHelper.ShouldUseColors | data-gov/src/colors.rs:64-75 | `NO_COLOR` forces false; otherwise `Never` false, `Always` true, `Auto` the terminal flag |
| Colors.NewHelper | data-gov/src/colors.rs:44-75 | each stream is coloured exactly when `NO_COLOR` is unset or empty and the mode is `Always`, or `Auto` with that stream a terminal |
| Colors.DefaultModeFollowsTerminal | data-gov/src/colors.rs:14-18 | in the default mode, without `NO_COLOR`, each stream is coloured exactly when it is a terminal |
| Colors.StreamsDifferOnlyByTerminal | data-gov/src/colors.rs:53-61 | stdout and stderr decisions differ only in `Auto` without `NO_COLOR` when exactly one stream is a terminal |
| Colors.NeverMeansPlain | data-gov/src/colors.rs:287-292 | `Never` colours neither stream |
| Colors.AlwaysMeansColorUnlessNoColor | data-gov/src/colors.rs:294-302 | `Always` colours both streams exactly when `NO_COLOR` is unset or empty |
| Colors.ColorHelper.Paint | data-gov/src/colors.rs:78-147 | the text is styled exactly when stdout is coloured; uncoloured renders as the text |
| Colors.SgrCode | data-gov/src/colors.rs:78-147 | each style's parameter is one or two characters |
| Colors.Painted | data-gov/src/colors.rs:212-266 | the styled text contains the text, framed by at least eight escape characters |
| Colors.ColoredString.Render | data-gov/src/colors.rs:78-147 | an unstyled string renders as itself |
| Colors.StyleBuilder.Start | data-gov/src/colors.rs:165-195 | keeps the decision; with colour off the text is the input |
| Colors.ChainedStyle.Then | data-gov/src/colors.rs:212-266 | with colour off the chain is unchanged; with colour on the old text stays inside the new one |
| Colors.PlainChainKeepsText | data-gov/src/colors.rs:204-266 | with colour off any chain of calls leaves the chained style unchanged |
| Colors.ColoredChainWraps | data-gov/src/colors.rs:204-266 | with colour on every call wraps the text, which stays inside and grows by at least eight per call |
| Colors.StyledTextPlainWhenOff | data-gov/src/colors.rs:150-273 | with stdout uncoloured, any styled chain displays exactly the input text |
| Repl.FromParts | data-gov/src/main.rs:28-91 | no tokens iff `Empty command`; an accepted command's word is one of its aliases and its arity fits; an unknown word gives `Unknown command: {word}` as spelt; a known word gives a command or a usage message |
| Repl.ParseCommand | data-gov/src/main.rs:28-33 | `Empty command` exactly for a line with no whitespace-separated token |
| Repl.ParseByTokens | data-gov/src/main.rs:29 | trimming before splitting changes nothing: a line parses as its whitespace tokens |
| Repl.UnknownWordQuoted | data-gov/src/main.rs:89 | an unknown command word is quoted as written |
| Repl.WordCaseIgnored | data-gov/src/main.rs:35 | the command word's case does not matter |
| Repl.SearchParse | data-gov/src/main.rs:36-47 | needs a query; the query is the arguments joined by spaces (re-splitting gives them back, and it ends with the last one); a limit is parsed from the last token only with two or more arguments |
| Repl.OneArgument | data-gov/src/main.rs:48-85 | `show`, `list` and `setdir` accept exactly one argument, else a usage message |
| Repl.DownloadParse | data-gov/src/main.rs:56-69 | one or two arguments; the index is the parsed `usize` of the second, and a non-numeric one gives `None` |
| Repl.NoArgumentCommandsIgnoreExtras | data-gov/src/main.rs:86-88 | `info`, `help` and `quit` ignore extra tokens |
| Repl.CliParsesLikeRepl | data-gov/src/main.rs:327-333 | the CLI's joined command parses like the REPL line with the same tokens |
| Repl.CliWords | data-gov/src/main.rs:327-333 | for whitespace-free words, the joined command parses as those words |
| Repl.KeptLineNotEmpty | data-gov/src/main.rs:118-127 | a line the REPL keeps is never an empty command, and its first token does not start with `#` |
| Repl.StepKeepsShape | data-gov/src/main.rs:115-156 | one read step keeps the session well shaped |
| Repl.Session | data-gov/src/main.rs:106-159 | no more outcomes than history lines, and no more history lines than inputs |
| Repl.SessionShape | data-gov/src/main.rs:106-159 | no handled `quit`; no skipped line in the history; the history has at most one more line than the outcomes |
| Repl.SkippedLineIgnored | data-gov/src/main.rs:118-123 | a blank or `#` line changes nothing in the session |
| Repl.Run | data-gov/src/main.rs:106-159 | the read loop's outcomes and history equal `Session` of the inputs |
| Repl.OkAndErrCover | data-gov/src/main.rs:446-459 | successes plus errors count every result |
| Repl.CountOutcomes | data-gov/src/main.rs:443-459 | the counters equal the numbers of successes and errors, which add up to the results |
| Repl.ExecuteDownload | data-gov/src/main.rs:404-467 | fetches the dataset by id; an error propagates; otherwise the Download branch on its downloadable resources |
| Repl.DownloadReportShape | data-gov/src/main.rs:408-466 | nothing to download iff there are no downloadable resources; an out-of-range index is at or past the count and reports the last index; a summary counts every resource |
| Repl.ExecuteList | data-gov/src/main.rs:470-492 | `organizations`/`orgs` (any case) lists the organizations with limit 50; anything else is an unknown list type without a request |
| Strings.ParseI32RoundTrip | data-gov/src/main.rs:42-44 | every `i32` printed in decimal parses back to itself |
| Strings.ParseUsizeRoundTrip | data-gov/src/main.rs:60-64 | every `usize` printed in decimal parses back to itself |
| Strings.UrlEncodeSpec | data-gov-ckan/src/client.rs:376 | the encoded text holds only unreserved characters and `%`; it equals the input exactly when the input is all unreserved |
| Strings.SplitJoin | data-gov/src/main.rs:327-333 | splitting the space-joined words gives the words' own tokens |

## Left out

- Network, streaming and timeouts. Each request is a function from URL to a scripted reply, so each URL always answers the same way within one model run.
- Concurrency. The `Semaphore` bound on parallel downloads and `join_all` scheduling are not modelled. The batch downloads run sequentially, which keeps the per-slot, input-order outcome contract. `maxConcurrentDownloads` is carried but never read. In Rust a bound of 0 gives `Semaphore::new(0)` (data-gov/src/client.rs:315-317, 402-404), whose permits never arrive, so a batch never finishes. The sequential model returns the results of such a batch all the same. No guard against 0 is part of this model.
- The filesystem. `create_dir_all` and `File::create` are scripted success or failure per output path. Bytes written are not modelled, only the chunk lengths. `validate_download_dir` and `std::env::current_dir` are inputs to the server's download tool.
- JSON. `serde_json` decoding is a supplied `decode` function that succeeds or fails. `to_string_pretty` is a supplied `render` function. Serialization cannot fail in the model.
- DataGov.UrlLastSegment: models `Url::parse(..).path_segments().last()` only for the `scheme://authority/path?query#fragment` form. It does not capture URL normalisation, such as the percent-encoding `Url::parse` applies to the path, or parse failures other than a missing scheme.
- DataGov.ResourceFilename: `to_lowercase` of the format is ASCII lower-casing; non-ASCII formats are lowered differently by Rust.
- Command and colour-mode words use ASCII lower-casing for `to_lowercase`. For matching against the fixed alias sets this is exact: the only non-ASCII character Rust lowers to an ASCII letter is KELVIN SIGN, to `k`, and no alias contains `k`.
- DataGovTypes.JoinPath: paths are component lists with the Unix rules of `Path::join` and `Path::components`. A `..` component is kept, not resolved, as Rust keeps it. A leading `.` component, which Rust keeps in a path built from a text, is dropped. Windows prefixes are not modelled. `SlotPath` and `BatchSlots` inherit these rules.
- Directory creation before a download is scripted for the non-empty parent only. `create_dir_all("")` succeeds at once in Rust, so an output path with the empty parent never fails there.
- DataGov.DataGovClient.constructor: `with_config` builds the `reqwest` client with a timeout and a user agent, and `build()?` can fail. The model's constructor always succeeds, so that error path is not modelled.
- The download byte counter is an unbounded `nat`; the source's `u64` cannot overflow at realistic sizes.
- Colors.Painted: the `colored` crate is not modelled. Its global override and its nested-reset rewriting are left out. `Painted` is a simplified escape form, and only the facts about containment and length are stated.
- Colors.ChainedStyle.Then: each chained call wraps the text in that simplified escape form, not in the exact bytes `colored` emits.
- Colors.ColoredChainWraps: states containment and growth of the wrapped text only, for the same reason.
- TTY detection and the `NO_COLOR` lookup are inputs. A non-Unicode `NO_COLOR` value is modelled as unset, as `env::var` reports it as an error.
- Printing is left out: the REPL and CLI printing, `print_repl_help`, `print_cli_help` and `print_package_details`, with their truncation. So are the Search, Show, Info, SetDir, Help and Quit branches of `execute_command`, which only print or call the client.
- `handle_command`'s SetDir branch (directory validation and client replacement) and the `rustyline` history file are left out. The read loop records the history in memory.
- `autocomplete_datasets`, `autocomplete_organizations` and the `ckan.*`/`data_gov.*` handlers other than `downloadResources` are covered only through `InvokeMethod`'s routing and parameter rules. Their results are supplied handlers.
- `initialize` and `tools/list` results, and the tool descriptions and input schemas, are not modelled. The server's stdio loop, `send_ready` and `write_response` are left out.
- DataGovTypes.DataGovErrorText: the `thiserror` texts of `DataGovError` are rendered, but no property is proved about them.
- Resource and package ids are kept as text; `Uuid` formatting is not modelled.
- The default base path and other configuration display are not modelled. `DataGovConfig` is not part of this model beyond its base directory, its dataset-directory function and its concurrency bound.
- The REPL search query keeps a trailing numeric limit token, as the source does: `search water 10` searches for `water 10` with limit 10. `SearchParse` states this as the behaviour.
