/**
 * The front end of the command-line tool. The command parser is shared by the
 * interactive loop and the one-shot command line. The module also covers the
 * loop's rule for which input lines it skips, how command-line words are joined
 * into one command, and the download and list branches of command execution:
 * picking one resource or all of them, and counting the outcomes.
 */
module Repl {
  import opened Wrappers
  import opened Strings
  import opened Seqs
  import opened CkanModels
  import opened CkanClient
  import opened DataGovTypes
  import opened DataGov

  // ---------------------------------------------------------------------------
  // Commands and their words
  // ---------------------------------------------------------------------------

  datatype ReplCommand =
    | Search(query: string, limit: Option<i32>)
    | Show(datasetId: string)
    | Download(datasetId: string, resourceIndex: Option<usize>)
    | List(what: string)
    | SetDir(path: string)
    | Info
    | Help
    | Quit

  const SearchWords: set<string> := {"search", "s"}
  const ShowWords: set<string> := {"show", "describe", "d"}
  const DownloadWords: set<string> := {"download", "dl"}
  const ListWords: set<string> := {"list", "ls"}
  const SetDirWords: set<string> := {"setdir", "cd"}
  const InfoWords: set<string> := {"info", "status"}
  const HelpWords: set<string> := {"help", "h", "?"}
  const QuitWords: set<string> := {"quit", "exit", "q"}

  /** The lower-case words that name a command's kind. */
  function Aliases(c: ReplCommand): set<string> {
    match c
    case Search(_, _) => SearchWords
    case Show(_) => ShowWords
    case Download(_, _) => DownloadWords
    case List(_) => ListWords
    case SetDir(_) => SetDirWords
    case Info => InfoWords
    case Help => HelpWords
    case Quit => QuitWords
  }

  /** Every command word. */
  predicate IsCommandWord(word: string) {
    word in SearchWords || word in ShowWords || word in DownloadWords || word in ListWords
    || word in SetDirWords || word in InfoWords || word in HelpWords || word in QuitWords
  }

  /** How many arguments each kind accepts. */
  predicate ArgumentsFit(c: ReplCommand, n: nat) {
    match c
    case Search(_, _) => n >= 1
    case Download(_, _) => 1 <= n <= 2
    case Show(_) => n == 1
    case List(_) => n == 1
    case SetDir(_) => n == 1
    case Info => true
    case Help => true
    case Quit => true
  }

  const EmptyCommandMessage: string := "Empty command"
  const SearchUsage: string := "Usage: search <query> [limit]"
  const ShowUsage: string := "Usage: show <dataset_id>"
  const DownloadUsage: string := "Usage: download <dataset_id> [resource_index]"
  const ListUsage: string := "Usage: list <organizations|orgs>"
  const SetDirUsage: string := "Usage: setdir <path>"

  function UnknownCommandMessage(word: string): string {
    "Unknown command: " + word
  }

  /** The usage messages, one per kind that takes arguments. */
  predicate IsUsage(message: string) {
    message in {SearchUsage, ShowUsage, DownloadUsage, ListUsage, SetDirUsage}
  }

  /** What `split_whitespace` yields: non-empty parts without whitespace. */
  predicate Tokens(parts: seq<string>) {
    forall i :: 0 <= i < |parts| ==> parts[i] != [] && NoWhitespace(parts[i])
  }

  // ---------------------------------------------------------------------------
  // Parsing
  // ---------------------------------------------------------------------------

  /** The match in `ReplCommand::from_str`, on the whitespace-separated parts. The
      command word is compared after lowering; the arguments are kept as written. */
  function FromParts(parts: seq<string>): (r: Result<ReplCommand, string>)
    ensures parts == [] <==> r == Err(EmptyCommandMessage)
    ensures r.Ok? ==> AsciiLower(parts[0]) in Aliases(r.value) && ArgumentsFit(r.value, |parts| - 1)
    ensures parts != [] && !IsCommandWord(AsciiLower(parts[0])) ==> r == Err(UnknownCommandMessage(parts[0]))
    ensures parts != [] && IsCommandWord(AsciiLower(parts[0])) ==> r.Ok? || IsUsage(r.error)
  {
    if |parts| == 0 then Err(EmptyCommandMessage)
    else
      var word := AsciiLower(parts[0]);
      if word in SearchWords then
        if |parts| < 2 then Err(SearchUsage)
        else Ok(Search(Join(" ", parts[1..]), if |parts| > 2 then ParseI32(parts[|parts| - 1]) else None))
      else if word in ShowWords then
        if |parts| != 2 then Err(ShowUsage) else Ok(Show(parts[1]))
      else if word in DownloadWords then
        if |parts| < 2 || |parts| > 3 then Err(DownloadUsage)
        else Ok(Download(parts[1], if |parts| == 3 then ParseUsize(parts[2]) else None))
      else if word in ListWords then
        if |parts| != 2 then Err(ListUsage) else Ok(List(parts[1]))
      else if word in SetDirWords then
        if |parts| != 2 then Err(SetDirUsage) else Ok(SetDir(parts[1]))
      else if word in InfoWords then Ok(Info)
      else if word in HelpWords then Ok(Help)
      else if word in QuitWords then Ok(Quit)
      else Err(UnknownCommandMessage(parts[0]))
  }

  /** `ReplCommand::from_str`: trim, split at whitespace, then match. A line is
      refused as empty exactly when it is blank. */
  function ParseCommand(line: string): (r: Result<ReplCommand, string>)
    ensures r == Err(EmptyCommandMessage) <==> SplitWhitespace(line) == []
  {
    SplitTrim(line);
    FromParts(SplitWhitespace(Trim(line)))
  }

  /** Trimming first changes nothing: a line parses as its whitespace tokens. */
  lemma ParseByTokens(line: string)
    ensures ParseCommand(line) == FromParts(SplitWhitespace(line))
  {
    SplitTrim(line);
  }

  /** An unknown command word is quoted back as written, not lowered. */
  lemma UnknownWordQuoted(word: string, args: seq<string>)
    requires !IsCommandWord(AsciiLower(word))
    ensures FromParts([word] + args) == Err(UnknownCommandMessage(word))
  {
  }

  /** The command word's case does not matter: a differently cased word gives the same
      command, or fails the same way unless it was unknown. */
  lemma WordCaseIgnored(parts: seq<string>, word: string)
    requires parts != [] && AsciiLower(word) == AsciiLower(parts[0])
    requires IsCommandWord(AsciiLower(word))
    ensures FromParts([word] + parts[1..]) == FromParts(parts)
  {
    assert ([word] + parts[1..])[1..] == parts[1..];
  }

  /** A line's last space-separated element. */
  lemma {:induction false} JoinEndsWithLast(parts: seq<string>)
    requires parts != []
    ensures EndsWith(Join(" ", parts), parts[|parts| - 1])
    decreases |parts|
  {
    if |parts| > 1 {
      JoinEndsWithLast(parts[1..]);
      var rest := Join(" ", parts[1..]);
      var last := parts[|parts| - 1];
      assert parts[1..][|parts[1..]| - 1] == last;
      var whole := parts[0] + " " + rest;
      assert whole[|whole| - |last|..] == rest[|rest| - |last|..];
    }
  }

  /** `search`: at least one argument; the query is every argument, a trailing number
      included, and re-splits into exactly those arguments; the limit is read from the
      last argument only when there are two or more, and is absent when it does not
      parse. */
  lemma SearchParse(parts: seq<string>)
    requires Tokens(parts) && parts != [] && AsciiLower(parts[0]) in SearchWords
    ensures FromParts(parts).Ok? <==> |parts| >= 2
    ensures FromParts(parts).Err? ==> FromParts(parts).error == SearchUsage
    ensures FromParts(parts).Ok? ==>
              var c := FromParts(parts).value;
              c.Search?
              && SplitWhitespace(c.query) == parts[1..]
              && EndsWith(c.query, parts[|parts| - 1])
              && (c.limit.Some? ==> |parts| > 2 && c.limit == ParseI32(parts[|parts| - 1]))
              && (|parts| > 2 ==> c.limit == ParseI32(parts[|parts| - 1]))
  {
    if |parts| >= 2 {
      var args := parts[1..];
      assert Tokens(args);
      SplitJoinWords(args);
      JoinEndsWithLast(args);
      assert args[|args| - 1] == parts[|parts| - 1];
    }
  }

  /** `show`, `list` and `setdir`: exactly one argument, kept as written. */
  lemma OneArgument(parts: seq<string>)
    requires parts != []
    requires var w := AsciiLower(parts[0]); w in ShowWords || w in ListWords || w in SetDirWords
    ensures FromParts(parts).Ok? <==> |parts| == 2
    ensures FromParts(parts).Ok? ==> FromParts(parts).value in {Show(parts[1]), List(parts[1]), SetDir(parts[1])}
    ensures FromParts(parts).Err? ==> IsUsage(FromParts(parts).error)
  {
  }

  /** `download`: one or two arguments; the index is the second argument read as a
      `usize`, and an index that does not parse means every resource. */
  lemma DownloadParse(parts: seq<string>)
    requires parts != [] && AsciiLower(parts[0]) in DownloadWords
    ensures FromParts(parts).Ok? <==> 2 <= |parts| <= 3
    ensures FromParts(parts).Err? ==> FromParts(parts).error == DownloadUsage
    ensures FromParts(parts).Ok? ==>
              FromParts(parts).value == Download(parts[1], if |parts| == 3 then ParseUsize(parts[2]) else None)
    ensures |parts| == 3 && (parts[2] == [] || !(IsDigit(parts[2][0]) || parts[2][0] == '+')) ==>
              FromParts(parts) == Ok(Download(parts[1], None))
  {
  }

  /** `info`, `help` and `quit` ignore whatever follows them. */
  lemma NoArgumentCommandsIgnoreExtras(word: string, extra: seq<string>)
    requires var w := AsciiLower(word); w in InfoWords || w in HelpWords || w in QuitWords
    ensures FromParts([word] + extra) == FromParts([word])
    ensures FromParts([word]).Ok?
  {
  }

  // ---------------------------------------------------------------------------
  // The command line
  // ---------------------------------------------------------------------------

  /** `run_cli_mode`: the command and its arguments joined with single spaces. */
  function CliLine(command: string, args: seq<string>): string {
    Join(" ", [command] + args)
  }

  /** The command line parses like any interactive line holding the same tokens, in
      the same order (an argument with spaces inside splits into several tokens). */
  lemma CliParsesLikeRepl(command: string, args: seq<string>, line: string)
    requires var words := [command] + args;
             SplitWhitespace(line) == Flatten(seq(|words|, i requires 0 <= i < |words| => SplitWhitespace(words[i])))
    ensures ParseCommand(CliLine(command, args)) == ParseCommand(line)
  {
    SplitJoin([command] + args);
    ParseByTokens(CliLine(command, args));
    ParseByTokens(line);
  }

  /** All-word arguments reach the parser unchanged. */
  lemma CliWords(words: seq<string>)
    requires Tokens(words) && words != []
    ensures ParseCommand(CliLine(words[0], words[1..])) == FromParts(words)
  {
    assert [words[0]] + words[1..] == words;
    SplitJoinWords(words);
    ParseByTokens(Join(" ", words));
  }

  // ---------------------------------------------------------------------------
  // The interactive loop
  // ---------------------------------------------------------------------------

  /** The loop passes over a line that is blank or, once trimmed, starts with `#`. */
  predicate SkipsLine(line: string) {
    var t := Trim(line);
    t == [] || t[0] == '#'
  }

  lemma {:induction false} SplitStartsAtFirst(s: string)
    requires s != [] && !IsWhitespace(s[0])
    ensures SplitWhitespace(s) != [] && SplitWhitespace(s)[0][0] == s[0]
  {
    assert Word(s) == [s[0]] + Word(s[1..]);
  }

  /** A line the loop does not skip is never refused as empty. */
  lemma KeptLineNotEmpty(line: string)
    requires !SkipsLine(line)
    ensures ParseCommand(line) != Err(EmptyCommandMessage)
    ensures SplitWhitespace(line) != [] && SplitWhitespace(line)[0][0] != '#'
  {
    SplitStartsAtFirst(Trim(line));
    SplitTrim(line);
  }

  /** What `readline` returns: a line, CTRL-C, CTRL-D, or another error. */
  datatype ReadResult = Line(text: string) | Interrupted | Eof | ReadFailed(message: string)

  /** What the loop does with a line it does not skip. */
  datatype Outcome =
    | Handled(command: ReplCommand)
    | Invalid(message: string)

  /** What a session passes on, in order, and the history it records. */
  datatype SessionLog = SessionLog(outcomes: seq<Outcome>, history: seq<string>)

  /** One `readline` result in front of the rest of the session: a skipped line leaves
      no trace; any other line goes into the history and is parsed, and `quit` ends
      the session there; any `readline` error ends it without a trace. */
  function Step(r: ReadResult, rest: SessionLog): SessionLog {
    if !r.Line? then SessionLog([], [])
    else if SkipsLine(r.text) then rest
    else
      var parsed := ParseCommand(r.text);
      if parsed == Ok(Quit) then SessionLog([], [r.text])
      else SessionLog([OutcomeOf(parsed)] + rest.outcomes, [r.text] + rest.history)
  }

  /** A parsed command is handed on; a parse error is reported as invalid. */
  function OutcomeOf(parsed: Result<ReplCommand, string>): (o: Outcome)
    ensures o.Handled? <==> parsed.Ok?
    ensures parsed.Ok? ==> o.command == parsed.value
    ensures parsed.Err? ==> o.message == parsed.error
  {
    if parsed.Ok? then Handled(parsed.value) else Invalid(parsed.error)
  }

  /** `DataGovRepl::run` over the `readline` results it would receive, running out of
      input being the end-of-file it would meet. */
  function Session(inputs: seq<ReadResult>): (log: SessionLog)
    ensures |log.outcomes| <= |log.history| <= |inputs|
    decreases |inputs|
  {
    if inputs == [] then SessionLog([], []) else Step(inputs[0], Session(inputs[1..]))
  }

  /** `quit` is never handed on, every history line is a line the loop kept, and each
      outcome has its history line, with one more line when the session ended on
      `quit`. */
  predicate WellShaped(log: SessionLog) {
    (forall i :: 0 <= i < |log.outcomes| ==> log.outcomes[i] != Handled(Quit))
    && (forall i :: 0 <= i < |log.history| ==> !SkipsLine(log.history[i]))
    && |log.history| - |log.outcomes| in {0, 1}
  }

  lemma StepKeepsShape(r: ReadResult, rest: SessionLog)
    requires WellShaped(rest)
    ensures WellShaped(Step(r, rest))
  {
    if r.Line? && !SkipsLine(r.text) {
      var parsed := ParseCommand(r.text);
      if parsed != Ok(Quit) {
        var o := OutcomeOf(parsed);
        assert o != Handled(Quit);
        assert Step(r, rest) == SessionLog([o] + rest.outcomes, [r.text] + rest.history);
        ConsKeepsShape(o, r.text, rest);
      }
    }
  }

  lemma ConsKeepsShape(o: Outcome, text: string, rest: SessionLog)
    requires WellShaped(rest) && o != Handled(Quit) && !SkipsLine(text)
    ensures WellShaped(SessionLog([o] + rest.outcomes, [text] + rest.history))
  {
    var next := SessionLog([o] + rest.outcomes, [text] + rest.history);
    assert forall i :: 0 < i < |next.outcomes| ==> next.outcomes[i] == rest.outcomes[i - 1];
    assert forall i :: 0 < i < |next.history| ==> next.history[i] == rest.history[i - 1];
  }

  lemma {:induction false} SessionShape(inputs: seq<ReadResult>)
    ensures WellShaped(Session(inputs))
    decreases |inputs|
  {
    if inputs != [] {
      SessionShape(inputs[1..]);
      StepKeepsShape(inputs[0], Session(inputs[1..]));
    }
  }

  /** Inserting a skipped line anywhere in the input changes nothing. */
  lemma {:induction false} SkippedLineIgnored(before: seq<ReadResult>, line: string, after: seq<ReadResult>)
    requires SkipsLine(line)
    ensures Session(before + [Line(line)] + after) == Session(before + after)
    decreases |before|
  {
    if before == [] {
      assert before + [Line(line)] + after == [Line(line)] + after;
      assert before + after == after;
      SkippedLineFirst(line, after);
    } else {
      SkippedLineIgnored(before[1..], line, after);
      SplitFirst(before, [Line(line)], after);
      SplitFirst(before, [], after);
      SessionConsCongruent(before[0], before[1..] + [Line(line)] + after, before[1..] + [] + after);
    }
  }

  lemma SplitFirst<T>(xs: seq<T>, mid: seq<T>, ys: seq<T>)
    requires xs != []
    ensures xs + mid + ys == [xs[0]] + (xs[1..] + mid + ys)
    ensures xs + ys == [xs[0]] + (xs[1..] + ys)
    ensures xs[1..] + [] + ys == xs[1..] + ys
  {
    assert xs == [xs[0]] + xs[1..];
  }

  lemma SessionConsCongruent(x: ReadResult, xs: seq<ReadResult>, ys: seq<ReadResult>)
    requires Session(xs) == Session(ys)
    ensures Session([x] + xs) == Session([x] + ys)
  {
    SessionCons(x, xs);
    SessionCons(x, ys);
  }

  lemma SkippedLineFirst(line: string, after: seq<ReadResult>)
    requires SkipsLine(line)
    ensures Session([Line(line)] + after) == Session(after)
  {
    SessionCons(Line(line), after);
  }

  lemma SessionCons(x: ReadResult, xs: seq<ReadResult>)
    ensures Session([x] + xs) == Step(x, Session(xs))
  {
    assert ([x] + xs)[1..] == xs;
  }

  /** A session resumed at `i`: what has been passed on so far, followed by the rest. */
  predicate SessionResumes(inputs: seq<ReadResult>, i: nat, outcomes: seq<Outcome>, history: seq<string>) {
    i <= |inputs|
    && var rest := Session(inputs[i..]);
       Session(inputs) == SessionLog(outcomes + rest.outcomes, history + rest.history)
  }

  lemma SessionAt(inputs: seq<ReadResult>, i: nat)
    requires i < |inputs|
    ensures Session(inputs[i..]) == Step(inputs[i], Session(inputs[i + 1..]))
  {
    assert inputs[i..][0] == inputs[i] && inputs[i..][1..] == inputs[i + 1..];
  }

  /** A kept line that is not `quit` moves the resumed session on by one outcome. */
  lemma ResumeLine(inputs: seq<ReadResult>, i: nat, outcomes: seq<Outcome>, history: seq<string>,
                   o: Outcome, text: string)
    requires SessionResumes(inputs, i, outcomes, history) && i < |inputs|
    requires var rest := Session(inputs[i + 1..]);
             Session(inputs[i..]) == SessionLog([o] + rest.outcomes, [text] + rest.history)
    ensures SessionResumes(inputs, i + 1, outcomes + [o], history + [text])
  {
    var rest := Session(inputs[i + 1..]);
    ConcatAssoc(outcomes, [o], rest.outcomes);
    ConcatAssoc(history, [text], rest.history);
  }

  /** The read loop of `DataGovRepl::run`, passing each kept line's outcome on. */
  method Run(inputs: seq<ReadResult>) returns (outcomes: seq<Outcome>, history: seq<string>)
    ensures SessionLog(outcomes, history) == Session(inputs)
  {
    outcomes, history := [], [];
    var i := 0;
    assert inputs[0..] == inputs;
    while i < |inputs|
      invariant 0 <= i <= |inputs|
      invariant SessionResumes(inputs, i, outcomes, history)
      decreases |inputs| - i
    {
      SessionAt(inputs, i);
      if !inputs[i].Line? {
        assert outcomes + [] == outcomes && history + [] == history;
        return;
      }
      var text := inputs[i].text;
      if SkipsLine(text) {
        i := i + 1;
        continue;
      }
      var parsed := ParseCommand(text);
      if parsed == Ok(Quit) {
        assert outcomes + [] == outcomes;
        history := history + [text];
        return;
      }
      var o := OutcomeOf(parsed);
      ResumeLine(inputs, i, outcomes, history, o, text);
      outcomes, history := outcomes + [o], history + [text];
      i := i + 1;
    }
    assert inputs[i..] == [];
    assert outcomes + [] == outcomes && history + [] == history;
  }

  // ---------------------------------------------------------------------------
  // execute_command: download and list
  // ---------------------------------------------------------------------------

  /** What the download branch reports when it does not fail. */
  datatype DownloadReport =
    | NoDownloadableResources
    | IndexOutOfRange(index: nat, last: nat)
    | Downloaded(index: nat, path: Path)
    | Summary(succeeded: nat, failed: nat)

  function OutOfRangeMessage(index: nat, last: nat): string {
    "Resource index " + NatToString(index) + " is out of range (0-" + NatToString(last) + ")"
  }

  predicate IsOk(r: Result<Path, DataGovError>) {
    r.Ok?
  }

  predicate IsErr(r: Result<Path, DataGovError>) {
    r.Err?
  }

  lemma {:induction false} OkAndErrCover(rs: seq<Result<Path, DataGovError>>)
    ensures Count(IsOk, rs) + Count(IsErr, rs) == |rs|
  {
    if rs != [] {
      OkAndErrCover(rs[1..]);
    }
  }

  lemma OutcomeCountsStep(rs: seq<Result<Path, DataGovError>>, i: nat)
    requires i < |rs|
    ensures Count(IsOk, rs[..i + 1]) == Count(IsOk, rs[..i]) + (if rs[i].Ok? then 1 else 0)
    ensures Count(IsErr, rs[..i + 1]) == Count(IsErr, rs[..i]) + (if rs[i].Ok? then 0 else 1)
  {
    CountPrefixSnoc(IsOk, rs, i);
    CountPrefixSnoc(IsErr, rs, i);
  }

  /** The summary loop of the download-all branch: one success or one error per
      result. */
  method CountOutcomes(results: seq<Result<Path, DataGovError>>) returns (successCount: nat, errorCount: nat)
    ensures successCount == Count(IsOk, results)
    ensures errorCount == Count(IsErr, results)
    ensures successCount + errorCount == |results|
  {
    successCount, errorCount := 0, 0;
    var i := 0;
    while i < |results|
      invariant 0 <= i <= |results|
      invariant successCount == Count(IsOk, results[..i])
      invariant errorCount == Count(IsErr, results[..i])
    {
      OutcomeCountsStep(results, i);
      if results[i].Ok? {
        successCount := successCount + 1;
      } else {
        errorCount := errorCount + 1;
      }
      i := i + 1;
    }
    assert results[..i] == results;
    OkAndErrCover(results);
  }

  /** The download branch of `execute_command`: fetch the dataset, take its
      downloadable resources, then either report that there are none, refuse an
      index past the last one, download the one resource, or download all of them and
      count the outcomes. An error from the dataset fetch or the single download is
      the command's error. */
  method ExecuteDownload(client: DataGovClient, datasetId: string, resourceIndex: Option<usize>,
                         ckanNet: string -> HttpReply, decodePackage: Json -> Result<Package, string>,
                         net: string -> HttpScript, fs: Path -> FsScript)
    returns (datasetUrl: string, r: Result<DownloadReport, DataGovError>)
    ensures datasetUrl == ActionUrl(client.ckan.basePath, "package_show", [QueryParam("id", datasetId)])
    ensures var pkg := FromCkan(Classify(ckanNet(datasetUrl), decodePackage));
            pkg.Err? ==> r == Err(pkg.error)
    ensures var pkg := FromCkan(Classify(ckanNet(datasetUrl), decodePackage));
            pkg.Ok? ==> DownloadBranch(client.config, datasetId, GetDownloadableResources(pkg.value),
                                       resourceIndex, net, fs, r)
  {
    var pkg;
    datasetUrl, pkg := client.GetDataset(datasetId, ckanNet, decodePackage);
    if pkg.Err? {
      return datasetUrl, Err(pkg.error);
    }
    var resources := GetDownloadableResources(pkg.value);
    if resources == [] {
      return datasetUrl, Ok(NoDownloadableResources);
    }
    if resourceIndex.Some? {
      var index := resourceIndex.value;
      if index >= |resources| {
        return datasetUrl, Ok(IndexOutOfRange(index, |resources| - 1));
      }
      var t := client.DownloadDatasetResource(resources[index], datasetId, net, fs);
      if t.result.Err? {
        return datasetUrl, Err(t.result.error);
      }
      return datasetUrl, Ok(Downloaded(index, t.result.value));
    }
    var results, events, requests := client.DownloadDatasetResources(resources, datasetId, net, fs);
    var successCount, errorCount := CountOutcomes(results);
    r := Ok(Summary(successCount, errorCount));
  }

  /** What the download branch promises once the dataset is fetched. */
  ghost predicate DownloadBranch(config: DataGovConfig, datasetId: string, resources: seq<Resource>,
                                 resourceIndex: Option<usize>, net: string -> HttpScript,
                                 fs: Path -> FsScript, r: Result<DownloadReport, DataGovError>)
  {
    (resources == [] ==> r == Ok(NoDownloadableResources))
    && (resources != [] && resourceIndex.Some? && resourceIndex.value >= |resources| ==>
          r == Ok(IndexOutOfRange(resourceIndex.value, |resources| - 1)))
    && (resources != [] && resourceIndex.Some? && resourceIndex.value < |resources| ==>
          var res := resources[resourceIndex.value];
          var t := Fetch(res, SlotPath(config.datasetDownloadDir(datasetId), res), Some(datasetId), net, fs);
          r == (if t.result.Ok? then Ok(Downloaded(resourceIndex.value, t.result.value)) else Err(t.result.error)))
    && (resources != [] && resourceIndex.None? ==>
          var dir := if |resources| > 1 then JoinPath(config.baseDownloadDir, datasetId)
                     else config.datasetDownloadDir(datasetId);
          var results := ResultsOf(Slots(resources, dir, Some(datasetId), net, fs));
          r == Ok(Summary(Count(IsOk, results), Count(IsErr, results))))
  }

  /** Read off the branch: an out-of-range report names an index past a last index
      that exists, and a download-all summary accounts for every resource once. */
  lemma DownloadReportShape(config: DataGovConfig, datasetId: string, resources: seq<Resource>,
                            resourceIndex: Option<usize>, net: string -> HttpScript,
                            fs: Path -> FsScript, r: Result<DownloadReport, DataGovError>)
    requires DownloadBranch(config, datasetId, resources, resourceIndex, net, fs, r)
    ensures r.Ok? && r.value.IndexOutOfRange? ==>
              r.value.last + 1 == |resources| && r.value.index > r.value.last
              && resourceIndex == Some(r.value.index)
    ensures r.Ok? && r.value.Summary? ==>
              resourceIndex.None? && r.value.succeeded + r.value.failed == |resources|
    ensures r.Ok? && r.value.Downloaded? ==> resourceIndex == Some(r.value.index) && r.value.index < |resources|
    ensures r == Ok(NoDownloadableResources) <==> resources == []
  {
    if resources != [] && resourceIndex.None? {
      var dir := if |resources| > 1 then JoinPath(config.baseDownloadDir, datasetId)
                 else config.datasetDownloadDir(datasetId);
      OkAndErrCover(ResultsOf(Slots(resources, dir, Some(datasetId), net, fs)));
    }
  }

  /** What the list branch reports. */
  datatype ListReport =
    | Organizations(names: seq<string>)
    | UnknownListType(what: string)

  const OrganizationListLimit: i32 := 50

  /** The list branch of `execute_command`: `organizations` or `orgs`, in any case,
      lists up to 50 organizations; any other word is reported, with no request made. */
  method ExecuteList(client: DataGovClient, what: string, ckanNet: string -> HttpReply,
                     decodeNames: Json -> Result<seq<string>, string>)
    returns (url: Option<string>, r: Result<ListReport, DataGovError>)
    ensures AsciiLower(what) in ["organizations", "orgs"] ==>
              url == Some(ActionUrl(client.ckan.basePath, "organization_list",
                                    Client.ListParams(None, Some(OrganizationListLimit), None)))
              && var names := FromCkan(Classify(ckanNet(url.value), decodeNames));
                 r == (if names.Ok? then Ok(Organizations(names.value)) else Err(names.error))
    ensures AsciiLower(what) !in ["organizations", "orgs"] ==> url == None && r == Ok(UnknownListType(what))
  {
    var lower := AsciiLower(what);
    if lower == "organizations" || lower == "orgs" {
      var u, names := client.ListOrganizations(Some(OrganizationListLimit), ckanNet, decodeNames);
      url := Some(u);
      r := if names.Ok? then Ok(Organizations(names.value)) else Err(names.error);
    } else {
      url, r := None, Ok(UnknownListType(what));
    }
  }
}
