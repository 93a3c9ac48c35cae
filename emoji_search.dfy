/**
 * The emoji-pack search tool: from a keyword it builds the query for the
 * upstream image-search API, sends it, classifies the decoded answer, fetches
 * the first image it names and turns every outcome, errors included, into a
 * `{code, msg, data}` reply.
 *
 * The two HTTP calls are not performed here. A `Network` says what each call
 * would produce (a transport error, another exception, or a response with its
 * status and content); the pipeline is a total function of the configuration,
 * the keyword and that network, and it reports the requests it sent along with
 * the reply.
 */
module EmojiSearch {
  import opened Wrappers
  import Decimal

  type Url = string

  newtype byte = b: int | 0 <= b < 256

  type Bytes = seq<byte>

  /** The plugin's configuration snapshot (`EmojiConfig`). */
  datatype EmojiConfig = EmojiConfig(
    apiUrl: Url,
    timeout: int,
    defaultLimit: int,
    userId: string,
    userKey: string,
    extraKeyword: string)

  /** The configuration as the plugin declares its defaults. */
  const DefaultConfig := EmojiConfig(
    "https://cn.apihz.cn/api/img/apihzbqbbaidu.php", 10, 1, "88888888", "88888888", "")

  /** The upstream answer once decoded and validated (`EmojiSearchResult`). */
  datatype EmojiSearchResult = EmojiSearchResult(
    code: int,
    msg: string,
    page: int,
    maxpage: int,
    count: int,
    res: seq<Url>)

  /** The query parameters of the search call. */
  datatype QueryParams = QueryParams(id: string, key: string, words: string, page: int, limit: int)

  /** An outbound HTTP GET. */
  datatype Request = SearchGet(url: Url, params: QueryParams) | ImageGet(url: Url)

  /** What one `client.get` produces. */
  datatype Fetch<T> =
    | TransportFailed(detail: string)     // the client raised `httpx.RequestError` (connection, timeout, protocol)
    | ClientCrashed(detail: string)       // the client raised some other exception
    | Answered(status: int, content: T)   // a response arrived, with its status code and its content

  /** What decoding a search response body as JSON and validating it produces. */
  datatype Body =
    | NotJson(detail: string)               // `response.json()` raised (a `ValueError`)
    | NotAnObject(detail: string)           // the JSON is not an object, so `**data` raises `TypeError`
    | Invalid(detail: string)               // the fields do not validate (a `ValueError`)
    | Valid(result: EmojiSearchResult)

  /** The remote side: what the search service and the image hosts answer to each request. */
  datatype Network = Network(search: (Url, QueryParams) -> Fetch<Body>, image: Url -> Fetch<Bytes>)

  /** The dict the tool returns: exactly the keys `code`, `msg` and `data`. */
  datatype Reply = Reply(code: int, msg: string, data: Option<Bytes>)

  /** The exception that left the `try` block, by the `except` clause that catches it. */
  datatype Error =
    | RequestError(detail: string)   // `httpx.RequestError`
    | HttpStatusError(status: int)   // `httpx.HTTPStatusError`, raised by `raise_for_status`
    | ParseError(detail: string)     // `KeyError` or `ValueError`
    | UnknownError(detail: string)   // any other `Exception`

  /** The `try` block's result: the requests it sent and its return value or the exception it raised. */
  datatype Attempt = Attempt(sent: seq<Request>, outcome: Result<Reply, Error>)

  /** One call of the tool: the requests sent, in order, and the reply returned. */
  datatype Run = Run(sent: seq<Request>, reply: Reply)

  const NoResultsMsg := "无搜索结果"
  const SuccessMsg := "搜索成功"
  const RequestErrorPrefix := "请求失败，无法连接到服务: "
  const HttpStatusErrorPrefix := "请求失败，服务返回错误: "
  const ParseErrorPrefix := "数据解析失败: "
  const UnknownErrorPrefix := "发生未知错误: "

  // ---------------------------------------------------------------------------
  // Request building

  /**
   * The keyword a `words` parameter was built from, given the configured extra
   * keyword: `words` with the separating space and the extra keyword removed
   * from its end, or `None` when it does not end that way.
   */
  function KeywordOf(words: string, extraKeyword: string): Option<string> {
    var n := |words| - |extraKeyword| - 1;
    if 0 <= n && words[n..] == " " + extraKeyword then Some(words[..n]) else None
  }

  /**
   * The query parameters: the credentials from the configuration, the caller's
   * keyword followed by a space and the extra keyword (the space is there even
   * when the extra keyword is empty), the first page and the configured limit.
   */
  function BuildParams(config: EmojiConfig, words: string): (p: QueryParams)
    ensures KeywordOf(p.words, config.extraKeyword) == Some(words)
    ensures |p.words| == |words| + 1 + |config.extraKeyword| && p.words[|words|] == ' '
    ensures p.id == config.userId && p.key == config.userKey
    ensures p.page == 1 && p.limit == config.defaultLimit
  {
    var p := QueryParams(config.userId, config.userKey, words + " " + config.extraKeyword, 1, config.defaultLimit);
    assert p.words[..|words|] == words;
    assert p.words[|words|..] == " " + config.extraKeyword;
    p
  }

  /** The request the search call sends. */
  function SearchRequest(config: EmojiConfig, words: string): Request {
    SearchGet(config.apiUrl, BuildParams(config, words))
  }

  /** Only the `words` parameter depends on the caller's keyword. */
  lemma KeywordAffectsOnlyWords(config: EmojiConfig, w1: string, w2: string)
    ensures BuildParams(config, w1).(words := "") == BuildParams(config, w2).(words := "")
  {
  }

  /** Different keywords give different `words` parameters. */
  lemma BuildParamsInjective(config: EmojiConfig, w1: string, w2: string)
    requires BuildParams(config, w1).words == BuildParams(config, w2).words
    ensures w1 == w2
  {
  }

  /** With the default configuration the keyword is sent with a trailing space. */
  lemma DefaultParams(words: string)
    ensures BuildParams(DefaultConfig, words) == QueryParams("88888888", "88888888", words + " ", 1, 1)
  {
  }

  // ---------------------------------------------------------------------------
  // The `try` block

  /** `httpx` 2xx test (`Response.is_success`). */
  predicate IsSuccess(status: int) {
    200 <= status <= 299
  }

  /**
   * `client.get` followed by `raise_for_status()`: the content of a 2xx
   * response, or the exception either step raises.
   */
  function Receive<T>(f: Fetch<T>): (r: Result<T, Error>)
    ensures r.Ok? <==> f.Answered? && IsSuccess(f.status)
    ensures r.Ok? ==> r.value == f.content
    ensures f.TransportFailed? ==> r == Err(RequestError(f.detail))
    ensures f.ClientCrashed? ==> r == Err(UnknownError(f.detail))
    ensures f.Answered? && !IsSuccess(f.status) ==> r == Err(HttpStatusError(f.status))
  {
    match f
    case TransportFailed(d) => Err(RequestError(d))
    case ClientCrashed(d) => Err(UnknownError(d))
    case Answered(status, content) =>
      if IsSuccess(status) then Ok(content) else Err(HttpStatusError(status))
  }

  /** `response.json()` and `EmojiSearchResult(**data)`: the validated result or the exception raised. */
  function Decode(body: Body): (r: Result<EmojiSearchResult, Error>)
    ensures r.Ok? <==> body.Valid?
    ensures r.Ok? ==> r.value == body.result
    ensures (body.NotJson? || body.Invalid?) ==> r == Err(ParseError(body.detail))
    ensures body.NotAnObject? ==> r == Err(UnknownError(body.detail))
  {
    match body
    case NotJson(d) => Err(ParseError(d))
    case NotAnObject(d) => Err(UnknownError(d))
    case Invalid(d) => Err(ParseError(d))
    case Valid(result) => Ok(result)
  }

  /**
   * The search stage of the `try` block: the GET, `raise_for_status()`, then
   * decoding and validation; the validated result or the first exception.
   */
  function SearchStage(config: EmojiConfig, words: string, net: Network): Result<EmojiSearchResult, Error> {
    match Receive(net.search(config.apiUrl, BuildParams(config, words)))
    case Err(e) => Err(e)
    case Ok(body) => Decode(body)
  }

  /**
   * The validated search result, when the search call was answered with a 2xx
   * status and a body that decodes and validates.
   */
  function SearchResult(config: EmojiConfig, words: string, net: Network): Option<EmojiSearchResult> {
    match SearchStage(config, words, net)
    case Err(_) => None
    case Ok(result) => Some(result)
  }

  /** The search succeeded with code 200 and at least one result URL. */
  predicate HasMatches(config: EmojiConfig, words: string, net: Network) {
    var s := SearchResult(config, words, net);
    s.Some? && s.value.code == 200 && |s.value.res| > 0
  }

  /** The body of the `try` block: everything up to the first exception. */
  function Try(config: EmojiConfig, words: string, net: Network): Attempt {
    var search := SearchRequest(config, words);
    match SearchStage(config, words, net)
    case Err(e) => Attempt([search], Err(e))
    case Ok(result) =>
      if result.code != 200 then
        Attempt([search], Ok(Reply(result.code, result.msg, None)))
      else if result.res == [] then
        Attempt([search], Ok(Reply(200, NoResultsMsg, None)))
      else
        var image := ImageGet(result.res[0]);
        match Receive(net.image(result.res[0]))
        case Err(e) => Attempt([search, image], Err(e))
        case Ok(bytes) => Attempt([search, image], Ok(Reply(200, SuccessMsg, Some(bytes))))
  }

  // ---------------------------------------------------------------------------
  // The `except` clauses

  /** The reply each `except` clause returns: code 400, no data, a message naming the failure. */
  function Recover(e: Error): (r: Reply)
    ensures r.code == 400 && r.data == None
    ensures e.RequestError? ==> r.msg == RequestErrorPrefix + e.detail
    ensures e.HttpStatusError? ==> r.msg == HttpStatusErrorPrefix + Decimal.IntToString(e.status)
    ensures e.ParseError? ==> r.msg == ParseErrorPrefix + e.detail
    ensures e.UnknownError? ==> r.msg == UnknownErrorPrefix + e.detail
  {
    match e
    case RequestError(d) => Reply(400, RequestErrorPrefix + d, None)
    case HttpStatusError(status) => Reply(400, HttpStatusErrorPrefix + Decimal.IntToString(status), None)
    case ParseError(d) => Reply(400, ParseErrorPrefix + d, None)
    case UnknownError(d) => Reply(400, UnknownErrorPrefix + d, None)
  }

  /**
   * Reads an error reply's message back into the error it reports: the four
   * messages start differently, and a status error's message ends in the
   * status code.
   */
  function Diagnose(msg: string): Option<Error> {
    if RequestErrorPrefix <= msg then
      Some(RequestError(msg[|RequestErrorPrefix|..]))
    else if HttpStatusErrorPrefix <= msg then
      match Decimal.ParseInt(msg[|HttpStatusErrorPrefix|..])
      case Some(status) => Some(HttpStatusError(status))
      case None => None
    else if ParseErrorPrefix <= msg then
      Some(ParseError(msg[|ParseErrorPrefix|..]))
    else if UnknownErrorPrefix <= msg then
      Some(UnknownError(msg[|UnknownErrorPrefix|..]))
    else
      None
  }

  /** Prefix `a` of `s` excludes prefix `b` when the two differ at some position. */
  lemma DistinctPrefixes(a: string, b: string, s: string, k: nat)
    requires a <= s && k < |a| && k < |b| && a[k] != b[k]
    ensures !(b <= s)
  {
  }

  /** Every error reply names its error unambiguously: the error can be read back from the message. */
  lemma {:induction false} DiagnoseRecover(e: Error)
    ensures Diagnose(Recover(e).msg) == Some(e)
  {
    var msg := Recover(e).msg;
    match e
    case RequestError(d) =>
      assert msg[|RequestErrorPrefix|..] == d;
    case HttpStatusError(status) =>
      DistinctPrefixes(HttpStatusErrorPrefix, RequestErrorPrefix, msg, 5);
      assert msg[|HttpStatusErrorPrefix|..] == Decimal.IntToString(status);
      Decimal.IntToStringRoundTrip(status);
    case ParseError(d) =>
      DistinctPrefixes(ParseErrorPrefix, RequestErrorPrefix, msg, 0);
      DistinctPrefixes(ParseErrorPrefix, HttpStatusErrorPrefix, msg, 0);
      assert msg[|ParseErrorPrefix|..] == d;
    case UnknownError(d) =>
      DistinctPrefixes(UnknownErrorPrefix, RequestErrorPrefix, msg, 0);
      DistinctPrefixes(UnknownErrorPrefix, HttpStatusErrorPrefix, msg, 0);
      DistinctPrefixes(UnknownErrorPrefix, ParseErrorPrefix, msg, 0);
      assert msg[|UnknownErrorPrefix|..] == d;
  }

  // ---------------------------------------------------------------------------
  // The tool

  /**
   * `search_emoji`: the `try` block, with an escaping exception turned into
   * its `except` clause's reply. The first request is always the search with
   * the parameters built from the configuration and keyword; the only other
   * request is the fetch of the first result URL, made exactly when the search
   * succeeded with code 200 and results; and the reply carries data exactly
   * when that fetch was answered with a 2xx status, the data being its content.
   */
  function SearchEmoji(config: EmojiConfig, words: string, net: Network): (r: Run)
    ensures 1 <= |r.sent| <= 2
    ensures r.sent[0] == SearchGet(config.apiUrl, BuildParams(config, words))
    ensures |r.sent| == 2 <==> HasMatches(config, words, net)
    ensures |r.sent| == 2 ==> r.sent[1] == ImageGet(SearchResult(config, words, net).value.res[0])
    ensures r.reply.data.Some? <==>
              |r.sent| == 2 && Receive(net.image(r.sent[1].url)).Ok?
    ensures r.reply.data.Some? ==>
              r.reply == Reply(200, SuccessMsg, Some(net.image(r.sent[1].url).content))
    ensures SearchResult(config, words, net).None? ==> r.reply.code == 400
  {
    var a := Try(config, words, net);
    match a.outcome
    case Ok(reply) => Run(a.sent, reply)
    case Err(e) => Run(a.sent, Recover(e))
  }

  // ---------------------------------------------------------------------------
  // The outcome of each path

  /** A search call that raises or is not answered with 2xx: that error's reply, and no image fetch. */
  lemma SearchCallFails(config: EmojiConfig, words: string, net: Network)
    requires Receive(net.search(config.apiUrl, BuildParams(config, words))).Err?
    ensures SearchEmoji(config, words, net) ==
              Run([SearchRequest(config, words)],
                  Recover(Receive(net.search(config.apiUrl, BuildParams(config, words))).error))
  {
  }

  /** A body that does not decode or validate: that error's reply (code 400), and no image fetch. */
  lemma SearchBodyRejected(config: EmojiConfig, words: string, net: Network)
    requires Receive(net.search(config.apiUrl, BuildParams(config, words))).Ok?
    requires !Receive(net.search(config.apiUrl, BuildParams(config, words))).value.Valid?
    ensures SearchEmoji(config, words, net) ==
              Run([SearchRequest(config, words)],
                  Recover(Decode(Receive(net.search(config.apiUrl, BuildParams(config, words))).value).error))
  {
  }

  /** An upstream code other than 200: that code and message verbatim, no data, no image fetch. */
  lemma UpstreamErrorPassedThrough(config: EmojiConfig, words: string, net: Network)
    requires SearchResult(config, words, net).Some?
    requires SearchResult(config, words, net).value.code != 200
    ensures var result := SearchResult(config, words, net).value;
            SearchEmoji(config, words, net) ==
              Run([SearchRequest(config, words)], Reply(result.code, result.msg, None))
  {
  }

  /** Code 200 with no results: not an error, code 200 "无搜索结果", no data, no image fetch. */
  lemma NoMatchesIsNotAnError(config: EmojiConfig, words: string, net: Network)
    requires SearchResult(config, words, net).Some?
    requires SearchResult(config, words, net).value.code == 200
    requires SearchResult(config, words, net).value.res == []
    ensures SearchEmoji(config, words, net) ==
              Run([SearchRequest(config, words)], Reply(200, NoResultsMsg, None))
  {
  }

  /**
   * Code 200 with results: exactly one image, the first result, is fetched;
   * its content on a 2xx answer is the data of a code-200 "搜索成功" reply,
   * and any failure of that fetch is reported as a failure of the whole call.
   */
  lemma FirstResultFetched(config: EmojiConfig, words: string, net: Network)
    requires HasMatches(config, words, net)
    ensures var url := SearchResult(config, words, net).value.res[0];
            var r := SearchEmoji(config, words, net);
            && r.sent == [SearchRequest(config, words), ImageGet(url)]
            && r.reply == match Receive(net.image(url))
                          case Ok(bytes) => Reply(200, SuccessMsg, Some(bytes))
                          case Err(e) => Recover(e)
  {
  }

  /** The reply depends on the image hosts only through their answer for the first result URL. */
  lemma OnlyFirstResultMatters(config: EmojiConfig, words: string, net1: Network, net2: Network)
    requires net1.search(config.apiUrl, BuildParams(config, words)) ==
             net2.search(config.apiUrl, BuildParams(config, words))
    requires HasMatches(config, words, net1) ==>
               var url := SearchResult(config, words, net1).value.res[0];
               net1.image(url) == net2.image(url)
    ensures SearchEmoji(config, words, net1) == SearchEmoji(config, words, net2)
  {
  }

  /** The status code of whichever call was answered with a non-2xx status (0 when none was). */
  function FailedStatus(config: EmojiConfig, words: string, net: Network): int {
    var search := net.search(config.apiUrl, BuildParams(config, words));
    if search.Answered? && !IsSuccess(search.status) then search.status
    else if HasMatches(config, words, net) then
      var image := net.image(SearchResult(config, words, net).value.res[0]);
      if image.Answered? && !IsSuccess(image.status) then image.status else 0
    else 0
  }

  /** Whichever call was answered with a non-2xx status, the reply is code 400 without data, naming that status. */
  lemma StatusErrorReported(config: EmojiConfig, words: string, net: Network)
    requires var search := net.search(config.apiUrl, BuildParams(config, words));
             || (search.Answered? && !IsSuccess(search.status))
             || (HasMatches(config, words, net) &&
                 var image := net.image(SearchResult(config, words, net).value.res[0]);
                 image.Answered? && !IsSuccess(image.status))
    ensures var r := SearchEmoji(config, words, net).reply;
            && r.code == 400 && r.data == None
            && Diagnose(r.msg) == Some(HttpStatusError(FailedStatus(config, words, net)))
  {
    DiagnoseRecover(HttpStatusError(FailedStatus(config, words, net)));
  }

  /** Whichever call raised a transport error, the reply is code 400 without data, naming a connection failure. */
  lemma TransportErrorReported(config: EmojiConfig, words: string, net: Network)
    requires || net.search(config.apiUrl, BuildParams(config, words)).TransportFailed?
             || (HasMatches(config, words, net) &&
                 net.image(SearchResult(config, words, net).value.res[0]).TransportFailed?)
    ensures var r := SearchEmoji(config, words, net).reply;
            && r.code == 400 && r.data == None
            && RequestErrorPrefix <= r.msg
            && Diagnose(r.msg).Some? && Diagnose(r.msg).value.RequestError?
  {
  }
}
