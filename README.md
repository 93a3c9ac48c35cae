# Emoji-pack search tool, modelled in Dafny

The emoji-pack plugin offers one tool, `search_emoji(words)`. It looks up
emoji images for a keyword with an upstream image-search API and returns the
bytes of the first image found. The result is a dict with exactly the keys
`code`, `msg` and `data`. This project models that tool's decision pipeline:

- building the query parameters from the configuration and the keyword;
- classifying the decoded search result (upstream error, no matches, or a
  fetch of the first URL);
- mapping every exception to a code-400 reply.

It then proves what the pipeline promises.

The two HTTP calls are abstracted. A `Network` value holds two total
functions. One gives what the search service answers to a URL and parameter
set. The other gives what an image host answers to a URL. Each answer is a
`Fetch`: a transport error (`httpx.RequestError`), some other exception, or a
response with its status code and content. For the search call, the content
is the outcome of JSON decoding and validation: not JSON, not an object,
invalid, or a valid `EmojiSearchResult`. `SearchEmoji` is a total function of
the configuration, the keyword and the network. It returns the requests it
sent, in order, and the reply.

Files:
- `wrappers.dfy`: `Option` and `Result`.
- `decimal.dfy`: Python's `str` on an `int` (used to put an HTTP status into a
  message), a parser that accepts exactly such renderings, and the proofs that
  parsing a rendering gives the number back and that whatever the parser
  accepts is printed back as the same string.
- `emoji_search.dfy`: the configuration, the search result, the parameters,
  the `try` block (`Try`), the `except` clauses (`Recover`), the tool
  (`SearchEmoji`), and a lemma for each path.

Behaviour of `search_emoji` worth knowing, all captured by the model:
- The extra keyword is appended after a space even when it is empty, so the
  default configuration sends the keyword with a trailing space.
- A failed image fetch after a successful search is a failure of the whole
  call: code 400, no data.
- A JSON body that is not an object makes `EmojiSearchResult(**data)` raise
  `TypeError`. That exception falls to the catch-all clause ("发生未知错误"),
  not to the parse-error clause.
- An upstream reply with a code other than 200 is passed through with its
  message verbatim. Such a message may look exactly like one of the local
  failure messages (say code 400 with "请求失败，服务返回错误: 500"), so a
  caller cannot always tell a local HTTP failure from an upstream one.
  `Diagnose` reads back the error only from the messages the `except`
  clauses build.

## Model

| member | source | states |
|---|---|---|
| `EmojiSearch.BuildParams` | __init__.py:84-90 | `id`/`key` are the configured credentials, `page` is 1, `limit` is the configured default; `words` is the keyword, one space, then the extra keyword, from which the keyword is read back exactly (`KeywordOf`) |
| `EmojiSearch.KeywordAffectsOnlyWords` | __init__.py:84-90 | two keywords give parameters that differ at most in `words` |
| `EmojiSearch.BuildParamsInjective` | __init__.py:87 | different keywords give different `words` parameters |
| `EmojiSearch.DefaultParams` | __init__.py:31-50 | with the declared defaults the parameters are id/key "88888888", `words` = keyword + " " (trailing space), page 1, limit 1 |
| `EmojiSearch.Receive` | __init__.py:91-92 | a call yields its content exactly when answered with a 2xx status (200..299); a transport error becomes `RequestError`, another exception the catch-all, a non-2xx answer `HttpStatusError` with that status |
| `EmojiSearch.Decode` | __init__.py:93-94 | only a valid body yields a result; bad JSON and failed validation are parse errors (`ValueError`); a non-object body is the catch-all (`TypeError`) |
| `EmojiSearch.Recover` | __init__.py:120-147 | every `except` clause gives code 400 with no data, and a message made of its clause's prefix and the exception detail (the status code, rendered as Python's `str`, for an HTTP status error) |
| `EmojiSearch.DiagnoseRecover` | __init__.py:120-147 | the four messages the `except` clauses build cannot be confused with one another: the error, with its detail or status, is read back from the message (an upstream message passed through verbatim may still look like one of them) |
| `EmojiSearch.SearchEmoji` | __init__.py:69-147 | one or two requests: first always the search, a GET to the configured API URL with the built parameters; a second, the GET of `res[0]`, exactly when the search gave code 200 with results; data present exactly when that fetch was answered 2xx, and then code 200, "搜索成功", its content; any search-stage failure gives code 400 |
| `EmojiSearch.SearchCallFails` | __init__.py:91-92 | a search call that raises or is answered non-2xx returns that error's reply and fetches no image |
| `EmojiSearch.SearchBodyRejected` | __init__.py:93-94 | a body that is not JSON, not an object or not valid returns that error's reply and fetches no image |
| `EmojiSearch.UpstreamErrorPassedThrough` | __init__.py:96-101 | an upstream code other than 200 is returned with the upstream message verbatim and no data; no image is fetched |
| `EmojiSearch.NoMatchesIsNotAnError` | __init__.py:103-108 | code 200 with an empty `res` returns code 200 "无搜索结果" with no data; no image is fetched |
| `EmojiSearch.FirstResultFetched` | __init__.py:110-119 | code 200 with results sends exactly the search and the GET of `res[0]`; the reply is code 200 "搜索成功" with that image's content, or the image fetch's failure reply |
| `EmojiSearch.OnlyFirstResultMatters` | __init__.py:111 | what image hosts answer for any URL other than `res[0]` cannot change the run |
| `EmojiSearch.StatusErrorReported` | __init__.py:127-133 | a non-2xx answer on either call, the image fetch included, gives code 400, no data, a message naming that status |
| `EmojiSearch.TransportErrorReported` | __init__.py:120-126 | a transport error on either call gives code 400, no data, a message starting "请求失败，无法连接到服务: " |
| `Decimal.NatToString` | __init__.py:131 | the rendering of a natural number is non-empty decimal digits with no leading zero |
| `Decimal.IntToString` | __init__.py:131 | Python's `str` of an `int`: non-empty, starting with '-' exactly when negative |
| `Decimal.IntToStringRoundTrip` | __init__.py:131 | parsing the rendering of an integer gives that integer back |
| `Decimal.ParseIntToString` | __init__.py:131 | the parser accepts only renderings: whatever it reads as `i` is exactly `str(i)`, so it and the rendering are inverse both ways |
| `Decimal.IntToStringInjective` | __init__.py:131 | different status codes give different messages |

## Left out

- HTTP I/O: the `httpx` client, `async`/`await`, the timeout (`timeout` is
  kept as a configuration field but has no effect) and connection handling.
  These are abstracted as the `Network` input.
- Logging calls and the cleanup hook: they only have side effects.
- Plugin registration, config mounting and the sandbox-method decorator:
  these are host-framework glue.
- JSON decoding and pydantic validation, including the `HttpUrl` grammar and
  URL normalisation. These are library code: the body's decoding outcome is
  an input, and a valid result holds its URLs as strings.
- The model assumes the HTTP client accepts the validated URLs as they are.
  With a pydantic whose `HttpUrl` is not a `str` (version 2), `client.get`
  raises `TypeError` on it (and on the configured API URL), so every call
  would end in the catch-all reply. Which pydantic is installed is not part
  of this model; an answer of `ClientCrashed` for the call covers that case.
- Exception details (`str(e)`) are opaque strings given by the input.
