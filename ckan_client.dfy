/**
 * The CKAN action API client: each endpoint builds a GET URL
 * `{base}/action/{action}[?k=v&...]` and classifies the `{success, result}` reply.
 */
module CkanClient {
  import opened Wrappers
  import opened Strings
  import opened Seqs
  import opened CkanModels

  /** `Configuration::default().base_path`. */
  const DefaultBasePath := "https://catalog.data.gov/api/3"

  // ---------------------------------------------------------------------------
  // Errors
  // ---------------------------------------------------------------------------

  /** `CkanError`. The boxed transport error and the `serde_json` error are kept as
      their rendered text. */
  datatype CkanError =
    | RequestError(reason: string)
    | ParseError(reason: string)
    | ApiError(status: u16, message: string)

  const ApiErrorPrefix := "CKAN API error ("

  /** `Display for CkanError`. */
  function CkanErrorText(e: CkanError): (t: string)
    ensures e.RequestError? || e.ParseError? ==> EndsWith(t, e.reason)
    ensures e.ApiError? ==> EndsWith(t, e.message)
  {
    match e
    case RequestError(reason) => EndsWithConcat("Request error: ", reason); "Request error: " + reason
    case ParseError(reason) => EndsWithConcat("Parse error: ", reason); "Parse error: " + reason
    case ApiError(status, message) =>
      EndsWithConcat(ApiErrorPrefix + NatToString(status) + "): ", message);
      ApiErrorPrefix + NatToString(status) + "): " + message
  }

  /** The rendered `ApiError` shows both its status and its message. */
  lemma ApiErrorTextShowsBoth(status: u16, message: string)
    ensures IsInfix(NatToString(status), CkanErrorText(ApiError(status, message)))
    ensures IsInfix(message, CkanErrorText(ApiError(status, message)))
    ensures StartsWith(CkanErrorText(ApiError(status, message)), ApiErrorPrefix)
  {
    var d := NatToString(status);
    var t := CkanErrorText(ApiError(status, message));
    assert InfixAt(d, t, |ApiErrorPrefix|);
    assert InfixAt(message, t, |t| - |message|);
  }

  /** The length of the leading run of decimal digits. */
  function DigitRun(s: string): (n: nat)
    ensures n <= |s|
  {
    if s == [] || !IsDigit(s[0]) then 0 else 1 + DigitRun(s[1..])
  }

  lemma {:induction false} DigitRunStopsAtBracket(d: string, r: string)
    requires AllDigits(d) && r != [] && r[0] == ')'
    ensures DigitRun(d + r) == |d|
  {
    if d == [] {
      assert d + r == r;
    } else {
      assert (d + r)[1..] == d[1..] + r;
      DigitRunStopsAtBracket(d[1..], r);
    }
  }

  /** Distinct errors render differently, so the text determines the error. */
  lemma CkanErrorTextInjective(e1: CkanError, e2: CkanError)
    requires CkanErrorText(e1) == CkanErrorText(e2)
    ensures e1 == e2
  {
    var t := CkanErrorText(e1);
    assert t[0] == CkanErrorText(e2)[0];
    match e1
    case RequestError(a) =>
      assert e2.RequestError?;
      assert a == t[|"Request error: "|..] == e2.reason;
    case ParseError(a) =>
      assert e2.ParseError?;
      assert a == t[|"Parse error: "|..] == e2.reason;
    case ApiError(s1, m1) =>
      assert e2.ApiError?;
      ApiErrorTextInjective(s1, m1, e2.status, e2.message);
  }

  lemma ApiErrorTextInjective(s1: u16, m1: string, s2: u16, m2: string)
    requires CkanErrorText(ApiError(s1, m1)) == CkanErrorText(ApiError(s2, m2))
    ensures s1 == s2 && m1 == m2
  {
    var t := CkanErrorText(ApiError(s1, m1));
    var p := |ApiErrorPrefix|;
    var r1 := "): " + m1;
    var r2 := "): " + m2;
    assert t[p..] == NatToString(s1) + r1;
    assert t[p..] == NatToString(s2) + r2;
    DigitRunStopsAtBracket(NatToString(s1), r1);
    DigitRunStopsAtBracket(NatToString(s2), r2);
    var n := |NatToString(s1)|;
    assert NatToString(s1) == t[p..][..n] == NatToString(s2);
    assert r1 == t[p..][n..] == r2;
    NatToStringInjective(s1, s2);
    assert m1 == r1[3..] == r2[3..];
  }

  // ---------------------------------------------------------------------------
  // URLs and query strings
  // ---------------------------------------------------------------------------

  /** One query parameter before its value is percent-encoded. */
  datatype QueryParam = QueryParam(key: string, value: string)

  /** A parameter key: non-empty and made of characters that need no encoding. */
  predicate ValidKey(k: string) {
    k != [] && forall i :: 0 <= i < |k| ==> IsUnreserved(k[i])
  }

  function Endpoint(base: string, action: string): string {
    base + "/action/" + action
  }

  /** `format!("{}={}", k, urlencoding::encode(v))`. */
  function EncodePair(p: QueryParam): string {
    p.key + "=" + UrlEncode(p.value)
  }

  function EncodePairs(ps: seq<QueryParam>): (parts: seq<string>)
    ensures |parts| == |ps|
    ensures forall i :: 0 <= i < |ps| ==> parts[i] == EncodePair(ps[i])
  {
    if ps == [] then [] else [EncodePair(ps[0])] + EncodePairs(ps[1..])
  }

  lemma {:induction false} EncodePairsSnoc(ps: seq<QueryParam>, p: QueryParam)
    ensures EncodePairs(ps + [p]) == EncodePairs(ps) + [EncodePair(p)]
  {
    if ps != [] {
      assert (ps + [p])[1..] == ps[1..] + [p];
      EncodePairsSnoc(ps[1..], p);
    }
  }

  /** Pushing one already-encoded `key=value` text keeps the pushed texts equal to the
      encoding of the pairs pushed so far. */
  lemma PushEncoded(parts: seq<string>, ps: seq<QueryParam>, key: string, value: string, pushed: string)
    requires parts == EncodePairs(ps)
    requires pushed == (key + "=") + UrlEncode(value)
    ensures parts + [pushed] == EncodePairs(ps + [QueryParam(key, value)])
  {
    EncodePairsSnoc(ps, QueryParam(key, value));
  }

  /** As `PushEncoded`, for a value pushed unencoded because it needs no encoding. */
  lemma PushPlain(parts: seq<string>, ps: seq<QueryParam>, key: string, value: string, pushed: string)
    requires parts == EncodePairs(ps)
    requires AllUnreserved(value)
    requires pushed == (key + "=") + value
    ensures parts + [pushed] == EncodePairs(ps + [QueryParam(key, value)])
  {
    UrlEncodeSpec(value);
    EncodePairsSnoc(ps, QueryParam(key, value));
  }

  lemma ActionUrlOfParts(base: string, action: string, ps: seq<QueryParam>, parts: seq<string>)
    requires parts == EncodePairs(ps)
    ensures ActionUrl(base, action, ps) == Endpoint(base, action) + (if parts == [] then "" else "?" + Join("&", parts))
  {
  }

  /** The request URL of an action: the endpoint, then `?` and the `&`-joined encoded
      pairs when there is at least one parameter. Every URL starts with its endpoint
      and goes on, with a `?`, exactly when it carries parameters. */
  function ActionUrl(base: string, action: string, ps: seq<QueryParam>): (url: string)
    ensures StartsWith(url, Endpoint(base, action))
    ensures |url| == |Endpoint(base, action)| <==> ps == []
    ensures ps != [] ==> url[|Endpoint(base, action)|] == '?'
  {
    Endpoint(base, action) + (if ps == [] then "" else "?" + Join("&", EncodePairs(ps)))
  }

  /** One optional parameter: a pair when the value is present, nothing otherwise. */
  function Opt(spec: (string, Option<string>)): seq<QueryParam> {
    if spec.1.Some? then [QueryParam(spec.0, spec.1.value)] else []
  }

  /** The parameters whose optional value is present, in the order given. */
  function Present(specs: seq<(string, Option<string>)>): seq<QueryParam> {
    if specs == [] then [] else Opt(specs[0]) + Present(specs[1..])
  }

  /** A parameter is sent exactly when its value is present, and the query is empty
      exactly when every value is absent. */
  lemma {:induction false} PresentSpec(specs: seq<(string, Option<string>)>)
    ensures |Present(specs)| <= |specs|
    ensures Present(specs) == [] <==> forall i :: 0 <= i < |specs| ==> specs[i].1.None?
    ensures forall i :: 0 <= i < |specs| && specs[i].1.Some? ==>
              QueryParam(specs[i].0, specs[i].1.value) in Present(specs)
    ensures forall p :: p in Present(specs) ==>
              exists i :: 0 <= i < |specs| && specs[i] == (p.key, Some(p.value))
  {
    if specs != [] {
      PresentSpec(specs[1..]);
      assert forall i :: 1 <= i < |specs| ==> specs[i] == specs[1..][i - 1];
      forall p | p in Present(specs)
        ensures exists i :: 0 <= i < |specs| && specs[i] == (p.key, Some(p.value))
      {
        if p !in Opt(specs[0]) {
          var j :| 0 <= j < |specs[1..]| && specs[1..][j] == (p.key, Some(p.value));
          assert specs[j + 1] == (p.key, Some(p.value));
        }
      }
    }
  }

  /** Valid keys stay valid when only the present parameters are kept. */
  lemma PresentKeys(specs: seq<(string, Option<string>)>)
    requires forall i :: 0 <= i < |specs| ==> ValidKey(specs[i].0)
    ensures forall i :: 0 <= i < |Present(specs)| ==> ValidKey(Present(specs)[i].key)
  {
    PresentSpec(specs);
    forall i | 0 <= i < |Present(specs)|
      ensures ValidKey(Present(specs)[i].key)
    {
      assert Present(specs)[i] in Present(specs);
    }
  }

  lemma Present2(a: (string, Option<string>), b: (string, Option<string>))
    ensures Present([a, b]) == Opt(a) + Opt(b)
  {
    assert [a, b][1..] == [b];
    assert [b][1..] == [];
    assert Present([b]) == Opt(b) + [] == Opt(b);
  }

  lemma Present3(a: (string, Option<string>), b: (string, Option<string>), c: (string, Option<string>))
    ensures Present([a, b, c]) == Opt(a) + Opt(b) + Opt(c)
  {
    assert [a, b, c][1..] == [b, c];
    Present2(b, c);
  }

  lemma Present4(a: (string, Option<string>), b: (string, Option<string>), c: (string, Option<string>),
                 d: (string, Option<string>))
    ensures Present([a, b, c, d]) == Opt(a) + Opt(b) + Opt(c) + Opt(d)
  {
    assert [a, b, c, d][1..] == [b, c, d];
    Present3(b, c, d);
  }

  /** The present parameters keep the order of `specs`. */
  lemma {:induction false} PresentInOrder(specs: seq<(string, Option<string>)>)
    ensures IsSubsequence(Present(specs), AllParams(specs))
  {
    if specs != [] {
      PresentInOrder(specs[1..]);
      assert AllParams(specs)[1..] == AllParams(specs[1..]);
      if specs[0].1.None? {
        assert Present(specs) == [] + Present(specs[1..]) == Present(specs[1..]);
        SubsequenceSkip(Present(specs), AllParams(specs));
      } else {
        assert Present(specs)[1..] == Present(specs[1..]);
      }
    }
  }

  /** Every parameter of `specs`, with an absent value written as the empty string. */
  function AllParams(specs: seq<(string, Option<string>)>): seq<QueryParam> {
    seq(|specs|, i requires 0 <= i < |specs| => QueryParam(specs[i].0, specs[i].1.UnwrapOr("")))
  }

  lemma SubsequenceSkip<T>(xs: seq<T>, ys: seq<T>)
    requires ys != [] && IsSubsequence(xs, ys[1..])
    ensures IsSubsequence(xs, ys)
  {
  }

  function OptionalText(o: Option<i32>): Option<string> {
    match o
    case Some(v) => Some(IntToString(v))
    case None => None
  }

  function OptionalBool(o: Option<bool>): Option<string> {
    match o
    case Some(v) => Some(BoolToString(v))
    case None => None
  }

  /** Splits `s` at every `sep`; the inverse of joining with `sep`. */
  function SplitOn(s: string, sep: char): (parts: seq<string>)
    ensures |parts| >= 1
  {
    if s == [] then [[]]
    else
      var rest := SplitOn(s[1..], sep);
      if s[0] == sep then [[]] + rest else [[s[0]] + rest[0]] + rest[1..]
  }

  lemma {:induction false} SplitOnFree(a: string, sep: char, b: string)
    requires !ContainsChar(a, sep)
    ensures SplitOn(a + [sep] + b, sep) == [a] + SplitOn(b, sep)
    ensures SplitOn(a, sep) == [a]
  {
    if a == [] {
      assert a + [sep] + b == [sep] + b;
      assert ([sep] + b)[1..] == b;
    } else {
      assert (a + [sep] + b)[1..] == a[1..] + [sep] + b;
      assert forall i :: 0 <= i < |a[1..]| ==> a[1..][i] == a[i + 1];
      SplitOnFree(a[1..], sep, b);
      assert a == [a[0]] + a[1..];
      assert a[0] != sep;
    }
  }

  lemma {:induction false} SplitOnJoin(parts: seq<string>, sep: char)
    requires parts != []
    requires forall i :: 0 <= i < |parts| ==> !ContainsChar(parts[i], sep)
    ensures SplitOn(Join([sep], parts), sep) == parts
  {
    if |parts| == 1 {
      SplitOnFree(parts[0], sep, []);
    } else {
      SplitOnFree(parts[0], sep, Join([sep], parts[1..]));
      SplitOnJoin(parts[1..], sep);
    }
  }

  lemma UrlEncodeFree(v: string, c: char)
    requires !IsUnreserved(c) && c != '%'
    ensures !ContainsChar(UrlEncode(v), c)
  {
    UrlEncodeSpec(v);
  }

  /** The query string read back: its `&`-separated pairs, each split at `=`. */
  function ParseQuery(q: string): seq<seq<string>> {
    var parts := SplitOn(q, '&');
    seq(|parts|, i requires 0 <= i < |parts| => SplitOn(parts[i], '='))
  }

  /** What follows the endpoint in `url`: `None` when there is no query, else the
      query read back. */
  function QueryOf(url: string, endpoint: string): Option<seq<seq<string>>>
    requires StartsWith(url, endpoint)
  {
    if |url| == |endpoint| || url[|endpoint|] != '?' then None
    else Some(ParseQuery(url[|endpoint| + 1..]))
  }

  lemma ContainsCharAppend(a: string, b: string, c: char)
    ensures ContainsChar(a + b, c) <==> ContainsChar(a, c) || ContainsChar(b, c)
  {
    if ContainsChar(a + b, c) {
      var j :| 0 <= j < |a + b| && (a + b)[j] == c;
      if j >= |a| {
        assert b[j - |a|] == c;
      }
    }
    if ContainsChar(b, c) {
      var j :| 0 <= j < |b| && b[j] == c;
      assert (a + b)[|a| + j] == c;
    }
    if ContainsChar(a, c) {
      var j :| 0 <= j < |a| && a[j] == c;
      assert (a + b)[j] == c;
    }
  }

  lemma KeyFree(k: string, c: char)
    requires ValidKey(k) && !IsUnreserved(c)
    ensures !ContainsChar(k, c)
  {
  }

  /** An encoded pair holds no `&` and splits at `=` into its key and encoded value. */
  lemma EncodePairReadsBack(p: QueryParam)
    requires ValidKey(p.key)
    ensures !ContainsChar(EncodePair(p), '&')
    ensures SplitOn(EncodePair(p), '=') == [p.key, UrlEncode(p.value)]
  {
    var v := UrlEncode(p.value);
    UrlEncodeFree(p.value, '&');
    UrlEncodeFree(p.value, '=');
    KeyFree(p.key, '&');
    KeyFree(p.key, '=');
    ContainsCharAppend(p.key, "=", '&');
    ContainsCharAppend(p.key + "=", v, '&');
    SplitOnFree(p.key, '=', v);
    SplitOnFree(v, '=', []);
    assert v + [] == v;
  }

  lemma QueryOfQuestionMark(e: string, q: string)
    ensures StartsWith(e + ("?" + q), e)
    ensures QueryOf(e + ("?" + q), e) == Some(ParseQuery(q))
  {
    assert (e + ("?" + q))[..|e|] == e;
    assert (e + ("?" + q))[|e| + 1..] == q;
  }

  lemma ParseEncodedPairs(ps: seq<QueryParam>)
    requires ps != []
    requires forall i :: 0 <= i < |ps| ==> ValidKey(ps[i].key)
    ensures ParseQuery(Join("&", EncodePairs(ps))) ==
            seq(|ps|, i requires 0 <= i < |ps| => [ps[i].key, UrlEncode(ps[i].value)])
  {
    SplitPairsAtAmpersand(ps);
    ParseSplitPairs(Join("&", EncodePairs(ps)), ps);
  }

  /** A query that splits at `&` into the encoded pairs reads back as the keys with
      their encoded values. */
  lemma ParseSplitPairs(q: string, ps: seq<QueryParam>)
    requires forall i :: 0 <= i < |ps| ==> ValidKey(ps[i].key)
    requires SplitOn(q, '&') == EncodePairs(ps)
    ensures ParseQuery(q) == seq(|ps|, i requires 0 <= i < |ps| => [ps[i].key, UrlEncode(ps[i].value)])
  {
    var parts := EncodePairs(ps);
    var got := ParseQuery(q);
    var want := seq(|ps|, i requires 0 <= i < |ps| => [ps[i].key, UrlEncode(ps[i].value)]);
    assert |got| == |want|;
    forall i | 0 <= i < |got|
      ensures got[i] == want[i]
    {
      EncodePairReadsBack(ps[i]);
      assert got[i] == SplitOn(parts[i], '=');
    }
  }

  /** The `&`-joined encoded pairs split at `&` into the pairs again. */
  lemma SplitPairsAtAmpersand(ps: seq<QueryParam>)
    requires ps != []
    requires forall i :: 0 <= i < |ps| ==> ValidKey(ps[i].key)
    ensures SplitOn(Join("&", EncodePairs(ps)), '&') == EncodePairs(ps)
  {
    var parts := EncodePairs(ps);
    forall i | 0 <= i < |parts|
      ensures !ContainsChar(parts[i], '&')
    {
      EncodePairReadsBack(ps[i]);
    }
    SplitOnJoin(parts, '&');
  }

  /** What the query of an action URL with parameters `ps` should read back as: nothing
      without parameters, else each key with its encoded value, in order. */
  function Pairs(ps: seq<QueryParam>): Option<seq<seq<string>>> {
    if ps == [] then None
    else Some(seq(|ps|, i requires 0 <= i < |ps| => [ps[i].key, UrlEncode(ps[i].value)]))
  }

  /** Every request URL reads back as exactly its parameters, in order, each key
      paired with its encoded value; with no parameters there is no `?`. */
  lemma ActionUrlReadsBack(base: string, action: string, ps: seq<QueryParam>)
    requires forall i :: 0 <= i < |ps| ==> ValidKey(ps[i].key)
    ensures QueryOf(ActionUrl(base, action, ps), Endpoint(base, action)) ==
            Pairs(ps)
  {
    if ps != [] {
      QueryOfQuestionMark(Endpoint(base, action), Join("&", EncodePairs(ps)));
      ParseEncodedPairs(ps);
    }
  }

  lemma PlainTextUnreserved(i: int, b: bool)
    ensures AllUnreserved(IntToString(i))
    ensures AllUnreserved(BoolToString(b))
  {
    var s := IntToString(i);
    var n := NatToString(if i < 0 then -i else i);
    assert forall k :: 0 <= k < |n| ==> IsUnreserved(n[k]);
    if i < 0 {
      assert forall k :: 1 <= k < |s| ==> s[k] == n[k - 1];
    }
  }

  /** Integers and booleans print as text that `urlencoding::encode` leaves alone, so
      pushing them unencoded gives the same URL as encoding them. */
  lemma PlainTextNeedsNoEncoding(i: int, b: bool)
    ensures UrlEncode(IntToString(i)) == IntToString(i)
    ensures UrlEncode(BoolToString(b)) == BoolToString(b)
  {
    PlainTextUnreserved(i, b);
    UrlEncodeSpec(IntToString(i));
    UrlEncodeSpec(BoolToString(b));
  }

  // ---------------------------------------------------------------------------
  // Responses
  // ---------------------------------------------------------------------------

  /** What one GET request yields, as far as the client can observe it. `text` is the
      body as text (`None` when reading it fails), `envelope` the body decoded as an
      `ActionResponse` (`Err` with the decoder's message when decoding fails). */
  datatype HttpReply =
    | SendFailed(reason: string)
    | Received(status: u16, text: Option<string>, envelope: Result<ActionResponse, string>)

  /** `StatusCode::is_success`. */
  predicate IsSuccessStatus(status: int) {
    200 <= status <= 299
  }

  /** The classification every endpoint applies to its reply; `decode` is the typed
      `serde_json::from_value` of the endpoint's result type. Each kind of error has
      its own origin: a `ParseError` only the typed decode of a present result, a
      `RequestError` only the transport or the envelope, and an `ApiError` carries the
      HTTP status unless the reply was 2xx, in which case it is 400 (CKAN reported
      failure) or 500 (no result). */
  function Classify<T>(reply: HttpReply, decode: Json -> Result<T, string>): (r: Result<T, CkanError>)
    ensures r.Ok? <==>
              reply.Received? && IsSuccessStatus(reply.status) && reply.envelope.Ok?
              && reply.envelope.value.success && reply.envelope.value.result.Some?
              && decode(reply.envelope.value.result.value).Ok?
    ensures r.Err? && r.error.ParseError? <==>
              reply.Received? && IsSuccessStatus(reply.status) && reply.envelope.Ok?
              && reply.envelope.value.success && reply.envelope.value.result.Some?
              && decode(reply.envelope.value.result.value).Err?
    ensures r.Err? && r.error.RequestError? <==>
              reply.SendFailed? || (IsSuccessStatus(reply.status) && reply.envelope.Err?)
    ensures r.Err? && r.error.ApiError? ==>
              reply.Received? &&
              if IsSuccessStatus(reply.status) then r.error.status == 400 || r.error.status == 500
              else r.error.status == reply.status
    ensures reply.SendFailed? ==> r == Err(RequestError(reply.reason))
    ensures reply.Received? && !IsSuccessStatus(reply.status) ==>
              r == Err(ApiError(reply.status, reply.text.UnwrapOr("Unknown error")))
    ensures reply.Received? && IsSuccessStatus(reply.status) && reply.envelope.Err? ==>
              r == Err(RequestError(reply.envelope.error))
    ensures reply.Received? && IsSuccessStatus(reply.status) && reply.envelope.Ok? ==>
              var env := reply.envelope.value;
              if !env.success then r == Err(ApiError(400, "CKAN API reported failure"))
              else if env.result.None? then r == Err(ApiError(500, "No result data in API response"))
              else match decode(env.result.value)
                   case Ok(v) => r == Ok(v)
                   case Err(m) => r == Err(ParseError(m))
  {
    match reply
    case SendFailed(reason) => Err(RequestError(reason))
    case Received(status, text, envelope) =>
      if !IsSuccessStatus(status) then Err(ApiError(status, text.UnwrapOr("Unknown error")))
      else match envelope
        case Err(m) => Err(RequestError(m))
        case Ok(env) =>
          if !env.success then Err(ApiError(400, "CKAN API reported failure"))
          else match env.result
            case None => Err(ApiError(500, "No result data in API response"))
            case Some(value) =>
              match decode(value)
              case Ok(v) => Ok(v)
              case Err(m) => Err(ParseError(m))
  }

  // ---------------------------------------------------------------------------
  // The client
  // ---------------------------------------------------------------------------

  /** `CkanClient`: the endpoints, each one a GET through the `net` function, which
      stands for the HTTP transport and the remote server. */
  class Client {
    const basePath: string

    constructor (basePath: string)
      ensures this.basePath == basePath
    {
      this.basePath := basePath;
    }

    /** Appends `?` and the `&`-joined parts to `endpoint` when there are any parts. */
    static method WithQuery(endpoint: string, parts: seq<string>) returns (url: string)
      ensures url == endpoint + (if parts == [] then "" else "?" + Join("&", parts))
    {
      url := endpoint;
      if parts != [] {
        url := url + "?";
        url := url + Join("&", parts);
      }
    }

    /** The parameter list of `package_search`: q, rows, start, fq, each when given. */
    static function PackageSearchParams(q: Option<string>, rows: Option<i32>, start: Option<i32>,
                                        fq: Option<string>): seq<QueryParam> {
      Present([("q", q), ("rows", OptionalText(rows)), ("start", OptionalText(start)), ("fq", fq)])
    }

    /** The parameter list of `organization_list` and `group_list`. */
    static function ListParams(sort: Option<string>, limit: Option<i32>, offset: Option<i32>): seq<QueryParam> {
      Present([("sort", sort), ("limit", OptionalText(limit)), ("offset", OptionalText(offset))])
    }

    /** Pushes the present parameters in a fixed order, then writes the URL. */
    method PackageSearch<T>(q: Option<string>, rows: Option<i32>, start: Option<i32>, fq: Option<string>,
                            net: string -> HttpReply, decode: Json -> Result<T, string>)
      returns (url: string, r: Result<T, CkanError>)
      ensures url == ActionUrl(basePath, "package_search", PackageSearchParams(q, rows, start, fq))
      ensures r == Classify(net(url), decode)
    {
      var queryParams: seq<QueryParam> := [];
      if q.Some? {
        queryParams := queryParams + [QueryParam("q", q.value)];
      }
      assert queryParams == Opt(("q", q));
      if rows.Some? {
        queryParams := queryParams + [QueryParam("rows", IntToString(rows.value))];
      }
      assert queryParams == Opt(("q", q)) + Opt(("rows", OptionalText(rows)));
      if start.Some? {
        queryParams := queryParams + [QueryParam("start", IntToString(start.value))];
      }
      assert queryParams == Opt(("q", q)) + Opt(("rows", OptionalText(rows))) + Opt(("start", OptionalText(start)));
      if fq.Some? {
        queryParams := queryParams + [QueryParam("fq", fq.value)];
      }
      assert queryParams == PackageSearchParams(q, rows, start, fq) by {
        Present4(("q", q), ("rows", OptionalText(rows)), ("start", OptionalText(start)), ("fq", fq));
      }
      url := WithQuery(Endpoint(basePath, "package_search"), EncodePairs(queryParams));
      r := Classify(net(url), decode);
    }

    method PackageShow<T>(id: string, net: string -> HttpReply, decode: Json -> Result<T, string>)
      returns (url: string, r: Result<T, CkanError>)
      ensures url == ActionUrl(basePath, "package_show", [QueryParam("id", id)])
      ensures r == Classify(net(url), decode)
    {
      url := Endpoint(basePath, "package_show") + "?id=" + UrlEncode(id);
      assert Join("&", EncodePairs([QueryParam("id", id)])) == "id=" + UrlEncode(id);
      r := Classify(net(url), decode);
    }

    /** The body shared by `organization_list` and `group_list`. */
    method ListAction<T>(action: string, sort: Option<string>, limit: Option<i32>, offset: Option<i32>,
                         net: string -> HttpReply, decode: Json -> Result<T, string>)
      returns (url: string, r: Result<T, CkanError>)
      ensures url == ActionUrl(basePath, action, ListParams(sort, limit, offset))
      ensures r == Classify(net(url), decode)
    {
      var queryParams: seq<QueryParam> := [];
      if sort.Some? {
        queryParams := queryParams + [QueryParam("sort", sort.value)];
      }
      assert queryParams == Opt(("sort", sort));
      if limit.Some? {
        queryParams := queryParams + [QueryParam("limit", IntToString(limit.value))];
      }
      assert queryParams == Opt(("sort", sort)) + Opt(("limit", OptionalText(limit)));
      if offset.Some? {
        queryParams := queryParams + [QueryParam("offset", IntToString(offset.value))];
      }
      assert queryParams == ListParams(sort, limit, offset) by {
        Present3(("sort", sort), ("limit", OptionalText(limit)), ("offset", OptionalText(offset)));
      }
      url := WithQuery(Endpoint(basePath, action), EncodePairs(queryParams));
      r := Classify(net(url), decode);
    }

    method OrganizationList<T>(sort: Option<string>, limit: Option<i32>, offset: Option<i32>,
                               net: string -> HttpReply, decode: Json -> Result<T, string>)
      returns (url: string, r: Result<T, CkanError>)
      ensures url == ActionUrl(basePath, "organization_list", ListParams(sort, limit, offset))
      ensures r == Classify(net(url), decode)
    {
      url, r := ListAction("organization_list", sort, limit, offset, net, decode);
    }

    method GroupList<T>(sort: Option<string>, limit: Option<i32>, offset: Option<i32>,
                        net: string -> HttpReply, decode: Json -> Result<T, string>)
      returns (url: string, r: Result<T, CkanError>)
      ensures url == ActionUrl(basePath, "group_list", ListParams(sort, limit, offset))
      ensures r == Classify(net(url), decode)
    {
      url, r := ListAction("group_list", sort, limit, offset, net, decode);
    }

    /** The spec of the autocomplete parameters: q, limit, vocabulary_id, ignore_self. */
    static function AutocompleteParams(q: Option<string>, limit: Option<i32>, vocabularyId: Option<string>,
                                       ignoreSelf: Option<bool>): seq<QueryParam> {
      Present([("q", q), ("limit", OptionalText(limit)), ("vocabulary_id", vocabularyId),
               ("ignore_self", OptionalBool(ignoreSelf))])
    }

    /** Pushes the autocomplete parameters as `key=value` texts: text values are
        encoded, `limit` and `ignore_self` written as their plain `Display` text. */
    static method AutocompleteQuery(q: Option<string>, limit: Option<i32>, vocabularyId: Option<string>,
                                    ignoreSelf: Option<bool>)
      returns (params: seq<string>)
      ensures params == EncodePairs(AutocompleteParams(q, limit, vocabularyId, ignoreSelf))
    {
      ghost var o1, o2, o3, o4 := Opt(("q", q)), Opt(("limit", OptionalText(limit))),
                                  Opt(("vocabulary_id", vocabularyId)), Opt(("ignore_self", OptionalBool(ignoreSelf)));
      params := [];
      params := PushEncodedIfSome(params, [], "q", q);
      assert [] + o1 == o1;
      if limit.Some? {
        PlainTextUnreserved(limit.value, false);
      }
      params := PushPlainIfSome(params, o1, "limit", OptionalText(limit));
      params := PushEncodedIfSome(params, o1 + o2, "vocabulary_id", vocabularyId);
      if ignoreSelf.Some? {
        PlainTextUnreserved(0, ignoreSelf.value);
      }
      params := PushPlainIfSome(params, o1 + o2 + o3, "ignore_self", OptionalBool(ignoreSelf));
      Present4(("q", q), ("limit", OptionalText(limit)), ("vocabulary_id", vocabularyId),
               ("ignore_self", OptionalBool(ignoreSelf)));
    }

    /** `if let Some(v) = value { params.push(format!("key={}", urlencoding::encode(v))) }` */
    static method PushEncodedIfSome(params: seq<string>, ghost spec: seq<QueryParam>, key: string,
                                    value: Option<string>)
      returns (pushed: seq<string>)
      requires params == EncodePairs(spec)
      ensures pushed == EncodePairs(spec + Opt((key, value)))
    {
      pushed := params;
      if value.Some? {
        PushEncoded(params, spec, key, value.value, (key + "=") + UrlEncode(value.value));
        pushed := params + [(key + "=") + UrlEncode(value.value)];
      } else {
        assert spec + [] == spec;
      }
    }

    /** `if let Some(v) = value { params.push(format!("key={}", v)) }`, for values that
        need no encoding. */
    static method PushPlainIfSome(params: seq<string>, ghost spec: seq<QueryParam>, key: string,
                                  value: Option<string>)
      returns (pushed: seq<string>)
      requires params == EncodePairs(spec)
      requires value.Some? ==> AllUnreserved(value.value)
      ensures pushed == EncodePairs(spec + Opt((key, value)))
    {
      pushed := params;
      if value.Some? {
        PushPlain(params, spec, key, value.value, (key + "=") + value.value);
        pushed := params + [(key + "=") + value.value];
      } else {
        assert spec + [] == spec;
      }
    }

    /** The body shared by the autocomplete endpoints. */
    method Autocomplete<T>(action: string, q: Option<string>, limit: Option<i32>,
                           vocabularyId: Option<string>, ignoreSelf: Option<bool>,
                           net: string -> HttpReply, decode: Json -> Result<T, string>)
      returns (url: string, r: Result<T, CkanError>)
      ensures url == ActionUrl(basePath, action, AutocompleteParams(q, limit, vocabularyId, ignoreSelf))
      ensures r == Classify(net(url), decode)
    {
      var params := AutocompleteQuery(q, limit, vocabularyId, ignoreSelf);
      url := WithQuery(Endpoint(basePath, action), params);
      ActionUrlOfParts(basePath, action, AutocompleteParams(q, limit, vocabularyId, ignoreSelf), params);
      r := Classify(net(url), decode);
    }

    method DatasetAutocomplete<T>(incomplete: Option<string>, limit: Option<i32>,
                                  net: string -> HttpReply, decode: Json -> Result<T, string>)
      returns (url: string, r: Result<T, CkanError>)
      ensures url == ActionUrl(basePath, "package_autocomplete",
                               Present([("q", incomplete), ("limit", OptionalText(limit))]))
      ensures r == Classify(net(url), decode)
    {
      url, r := Autocomplete("package_autocomplete", incomplete, limit, None, None, net, decode);
      Present4(("q", incomplete), ("limit", OptionalText(limit)), ("vocabulary_id", None), ("ignore_self", None));
      Present2(("q", incomplete), ("limit", OptionalText(limit)));
    }

    method TagAutocomplete<T>(incomplete: Option<string>, limit: Option<i32>, vocabularyId: Option<string>,
                              net: string -> HttpReply, decode: Json -> Result<T, string>)
      returns (url: string, r: Result<T, CkanError>)
      ensures url == ActionUrl(basePath, "tag_autocomplete",
                               Present([("q", incomplete), ("limit", OptionalText(limit)),
                                        ("vocabulary_id", vocabularyId)]))
      ensures r == Classify(net(url), decode)
    {
      url, r := Autocomplete("tag_autocomplete", incomplete, limit, vocabularyId, None, net, decode);
      Present4(("q", incomplete), ("limit", OptionalText(limit)), ("vocabulary_id", vocabularyId), ("ignore_self", None));
      Present3(("q", incomplete), ("limit", OptionalText(limit)), ("vocabulary_id", vocabularyId));
      var a, b, c := Opt(("q", incomplete)), Opt(("limit", OptionalText(limit))), Opt(("vocabulary_id", vocabularyId));
      assert a + b + c + [] == a + b + c;
    }

    method UserAutocomplete<T>(q: Option<string>, limit: Option<i32>, ignoreSelf: Option<bool>,
                               net: string -> HttpReply, decode: Json -> Result<T, string>)
      returns (url: string, r: Result<T, CkanError>)
      ensures url == ActionUrl(basePath, "user_autocomplete",
                               Present([("q", q), ("limit", OptionalText(limit)),
                                        ("ignore_self", OptionalBool(ignoreSelf))]))
      ensures r == Classify(net(url), decode)
    {
      url, r := Autocomplete("user_autocomplete", q, limit, None, ignoreSelf, net, decode);
      Present4(("q", q), ("limit", OptionalText(limit)), ("vocabulary_id", None), ("ignore_self", OptionalBool(ignoreSelf)));
      Present3(("q", q), ("limit", OptionalText(limit)), ("ignore_self", OptionalBool(ignoreSelf)));
      var a, b, d := Opt(("q", q)), Opt(("limit", OptionalText(limit))), Opt(("ignore_self", OptionalBool(ignoreSelf)));
      assert a + b + [] + d == a + b + d;
    }

    method GroupAutocomplete<T>(q: Option<string>, limit: Option<i32>,
                                net: string -> HttpReply, decode: Json -> Result<T, string>)
      returns (url: string, r: Result<T, CkanError>)
      ensures url == ActionUrl(basePath, "group_autocomplete",
                               Present([("q", q), ("limit", OptionalText(limit))]))
      ensures r == Classify(net(url), decode)
    {
      url, r := Autocomplete("group_autocomplete", q, limit, None, None, net, decode);
      Present4(("q", q), ("limit", OptionalText(limit)), ("vocabulary_id", None), ("ignore_self", None));
      Present2(("q", q), ("limit", OptionalText(limit)));
    }

    method OrganizationAutocomplete<T>(q: Option<string>, limit: Option<i32>,
                                       net: string -> HttpReply, decode: Json -> Result<T, string>)
      returns (url: string, r: Result<T, CkanError>)
      ensures url == ActionUrl(basePath, "organization_autocomplete",
                               Present([("q", q), ("limit", OptionalText(limit))]))
      ensures r == Classify(net(url), decode)
    {
      url, r := Autocomplete("organization_autocomplete", q, limit, None, None, net, decode);
      Present4(("q", q), ("limit", OptionalText(limit)), ("vocabulary_id", None), ("ignore_self", None));
      Present2(("q", q), ("limit", OptionalText(limit)));
    }

    /** The format endpoint's action is `format_autocomplete`. */
    method ResourceFormatAutocomplete<T>(incomplete: Option<string>, limit: Option<i32>,
                                         net: string -> HttpReply, decode: Json -> Result<T, string>)
      returns (url: string, r: Result<T, CkanError>)
      ensures url == ActionUrl(basePath, "format_autocomplete",
                               Present([("q", incomplete), ("limit", OptionalText(limit))]))
      ensures r == Classify(net(url), decode)
    {
      url, r := Autocomplete("format_autocomplete", incomplete, limit, None, None, net, decode);
      Present4(("q", incomplete), ("limit", OptionalText(limit)), ("vocabulary_id", None), ("ignore_self", None));
      Present2(("q", incomplete), ("limit", OptionalText(limit)));
    }
  }

  /** The query of an action whose parameters are the present ones of `specs` reads
      back as exactly those, in order, and it is absent exactly when every value is. */
  lemma SpecsQuery(base: string, action: string, specs: seq<(string, Option<string>)>)
    requires forall i :: 0 <= i < |specs| ==> ValidKey(specs[i].0)
    ensures var ps := Present(specs);
            StartsWith(ActionUrl(base, action, ps), Endpoint(base, action))
            && (ps == [] <==> forall i :: 0 <= i < |specs| ==> specs[i].1.None?)
            && QueryOf(ActionUrl(base, action, ps), Endpoint(base, action)) ==
               Pairs(ps)
            && IsSubsequence(ps, AllParams(specs))
  {
    var ps := Present(specs);
    PresentSpec(specs);
    PresentKeys(specs);
    ActionUrlReadsBack(base, action, ps);
    PresentInOrder(specs);
  }

  lemma LiteralKeys()
    ensures ValidKey("q") && ValidKey("rows") && ValidKey("start") && ValidKey("fq")
    ensures ValidKey("sort") && ValidKey("limit") && ValidKey("offset") && ValidKey("id")
  {
  }

  /** The `package_search` query reads back as q, rows, start, fq, in that order, each
      exactly when it was given, with the numbers as decimal text and no `?` when none
      was given. */
  lemma PackageSearchQuery(base: string, q: Option<string>, rows: Option<i32>, start: Option<i32>, fq: Option<string>)
    ensures var ps := Client.PackageSearchParams(q, rows, start, fq);
            StartsWith(ActionUrl(base, "package_search", ps), Endpoint(base, "package_search"))
            && (ps == [] <==> q.None? && rows.None? && start.None? && fq.None?)
            && QueryOf(ActionUrl(base, "package_search", ps), Endpoint(base, "package_search")) ==
               Pairs(ps)
    ensures IsSubsequence(Client.PackageSearchParams(q, rows, start, fq),
                          AllParams([("q", q), ("rows", OptionalText(rows)), ("start", OptionalText(start)), ("fq", fq)]))
  {
    var specs := [("q", q), ("rows", OptionalText(rows)), ("start", OptionalText(start)), ("fq", fq)];
    LiteralKeys();
    SpecsQuery(base, "package_search", specs);
    assert (forall i :: 0 <= i < |specs| ==> specs[i].1.None?) <==>
           specs[0].1.None? && specs[1].1.None? && specs[2].1.None? && specs[3].1.None?;
  }

  /** `package_show` always has a query, holding exactly the encoded id. */
  lemma PackageShowQuery(base: string, id: string)
    ensures StartsWith(ActionUrl(base, "package_show", [QueryParam("id", id)]), Endpoint(base, "package_show"))
    ensures QueryOf(ActionUrl(base, "package_show", [QueryParam("id", id)]), Endpoint(base, "package_show"))
            == Some([["id", UrlEncode(id)]])
  {
    var ps := [QueryParam("id", id)];
    LiteralKeys();
    ActionUrlReadsBack(base, "package_show", ps);
    assert Pairs(ps).value[0] == ["id", UrlEncode(id)];
    assert Pairs(ps).value == [["id", UrlEncode(id)]];
  }

  /** The listing endpoints read back as sort, limit, offset, each exactly when given. */
  lemma ListQuery(base: string, action: string, sort: Option<string>, limit: Option<i32>, offset: Option<i32>)
    ensures var ps := Client.ListParams(sort, limit, offset);
            StartsWith(ActionUrl(base, action, ps), Endpoint(base, action))
            && (ps == [] <==> sort.None? && limit.None? && offset.None?)
            && QueryOf(ActionUrl(base, action, ps), Endpoint(base, action)) ==
               Pairs(ps)
    ensures IsSubsequence(Client.ListParams(sort, limit, offset),
                          AllParams([("sort", sort), ("limit", OptionalText(limit)), ("offset", OptionalText(offset))]))
  {
    var specs := [("sort", sort), ("limit", OptionalText(limit)), ("offset", OptionalText(offset))];
    LiteralKeys();
    SpecsQuery(base, action, specs);
    assert (forall i :: 0 <= i < |specs| ==> specs[i].1.None?) <==>
           specs[0].1.None? && specs[1].1.None? && specs[2].1.None?;
  }
}
