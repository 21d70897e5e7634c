# httpclient: a verified model of the batch and single-request HTTP clients

This project models the core of the PHP library `princebo\httpclient`. The library has two
clients built on libcurl.

- **AsyncClient, the batch client.** It registers any number of curl handles under integer
  handler ids. It configures each handler: options, headers, cookies, post data and uploads.
  It activates handlers through the verbs `get`, `post`, `postJson`, `postXml` and `upload`.
  It runs them together through the multi interface. It collects one result and one error
  record per handler on demand.
- **Client, the single-request client.** It builds one request from setters and runs it at
  once. A request that completes resets the configuration.
- **ClientTrait.** It holds the helpers both clients share:
  - the default option table, filtered to the constants the transport defines;
  - recognising a live curl handle;
  - reading a handle's id from its string form;
  - the exception raised for an easy-interface error code.

The model is split by where the source keeps state.

- **Batch client state:** `BatchModel` holds the batch client's fields as a value (`Batch`).
  Each operation is a function from state to state and outcome, with contracts saying what
  the operation does.
- **Batch client class:** `BatchClient.AsyncClient` is a class with the same fields. Its
  methods update those fields in place with the source's loops. Each method is proved to
  reach exactly the state and outcome of the matching `BatchModel` function.
- **Single client:** `SingleClient` holds the single client both ways: value-level
  functions (`Execute`, `PostBody`, …) and the `Client` class proved against them.
- **Batch properties:** `BatchProperties` proves the properties that relate several
  operations.
- **Shared modules:**
  - `ClientTrait` holds the shared helpers.
  - `PhpStrings` holds the PHP string semantics the code relies on: `empty()`, decimal
    conversion, the `\d+` match, `implode` and `basename`.
  - `PhpArrays` holds ordered PHP arrays: writes, `array_merge`, and rendering
    `"key: value"` lines.
  - `Curl` holds the transport vocabulary: option codes, values, resources and error kinds.

The transport is never called. What libcurl would answer is passed in as a parameter:
- whether `curl_setopt_array` accepts an option array;
- `curl_errno`;
- the statuses of `curl_multi_add_handle` and `curl_multi_exec`;
- the `(status, stillRunning)` answers of the select loop;
- the completion queue `curl_multi_info_read` pops;
- the content `curl_multi_getcontent` returns;
- the body `curl_exec` returns.

The following are function-valued inputs: `json_decode` validity, `curl_strerror`,
`curl_multi_strerror`, `realpath` and the MIME detection. Which constants the transport
defines is a map from name to value.

Where the intended design and the code differ, the model follows the code. The lemmas and
contracts show each difference:
- A verb appends the handle to the activation list every time it is called. There is no
  deduplication. A handle activated twice is therefore passed twice to
  `curl_multi_add_handle`. The attach statuses are an input, so the model allows the second
  attach to fail.
- The batch client formats cookies as `"name: value"`, not `"name=value"`. Its cookie line
  buffer is never emptied between handlers, so a handler is sent the cookies of every
  handler before it (`BatchProperties.CookiesLeakAcrossHandlers`).
- The XML validity guard of `postXml` compares the string with `false`, so it never refuses
  a body.
- `postXml` with an empty body fails on the `Content-Length` header. The length renders as
  `"0"` and `addHeader` refuses it as empty. By then the options and the `Content-Type`
  header are already set, and in the batch client the handler is already activated.
  `postJson` never gets that far with an empty body, because `json_decode("")` is a syntax
  error. The model still has the same Content-Length path for `postJson`, reachable only
  because JSON validity is an input.
- A single-client request that fails in the transport keeps its configuration. Only a
  completed request resets it.
- A completion record for a handle that is not registered still gets an entry.

## Model

| member | source | states |
|---|---|---|
| PhpStrings.DecimalRoundTrip | ClientTrait.php:97-105 | reading back the decimal form of n gives n, which the id extraction relies on |
| PhpStrings.ZeroIsTheOnlyEmptyDecimal | AsyncClient.php:130 | the decimal form of a length is `empty()` exactly when the length is 0 |
| PhpStrings.FirstDigitRun | ClientTrait.php:97-103 | the `\d+` match finds nothing exactly when the string holds no digit |
| PhpStrings.FirstDigitRunIsFirst | ClientTrait.php:97-105 | the value read is the first run of digits: everything before it is digit-free and the run is read up to its last digit |
| PhpStrings.FirstDigitRunAfterPrefix | ClientTrait.php:97-105 | a digit-free prefix followed by digits yields the value of those digits |
| PhpStrings.Basename | AsyncClient.php:438 | the default upload file name is a '/'-free suffix of the resolved path, cut at its last '/' |
| PhpArrays.Put | AsyncClient.php:361 | `$a[$k] = $v` keeps the array well formed |
| PhpArrays.PutLastWins | AsyncClient.php:355-365 | writing a key twice leaves only the second value |
| PhpArrays.PutFrame | AsyncClient.php:361 | a write stores its value, keeps every other entry, and keeps the order of the old keys |
| PhpArrays.PutAllKeys | Client.php:270 | writing distinct keys in order appends exactly the keys that are new, in that order |
| PhpArrays.Merge | AsyncClient.php:402-405 | `array_merge` holds the union of both arrays with the second one's values winning; the keys are the first one's, then the second one's new keys in the second one's order |
| PhpArrays.RenderAt | AsyncClient.php:527-528 | line i of the rendering is key i, the separator and its value |
| ClientTrait.GenerateDefaultOptions | ClientTrait.php:44-51 | the loop builds exactly the filtered default table |
| ClientTrait.DefaultsKeys | ClientTrait.php:18-51 | a code has a default exactly when some table entry with a defined name maps to it |
| ClientTrait.DefaultsValue | ClientTrait.php:46-47 | a defined entry not overridden by a later one supplies its code's value |
| ClientTrait.NoDefaultsWhenNothingDefined | ClientTrait.php:50 | with no name defined there are no defaults |
| ClientTrait.HandlerIdFromText | ClientTrait.php:97-103 | extraction fails, with the no-match error, exactly when the string holds no digit |
| ClientTrait.ResourceTextRoundTrip | ClientTrait.php:97-105 | the string form "Resource id #n" of a resource always yields n |
| ClientTrait.GetEasyHandlerId | ClientTrait.php:91-106 | a non-resource is refused; an open resource yields its own number |
| ClientTrait.GenerateExceptionOnEasy | ClientTrait.php:76-82 | the error keeps its code; its message is the transport's text, or the fixed fallback when that is empty, and is never empty |
| ClientTrait.Resolve | Client.php:336 | explicit options over defaults: every code of either, with the explicit value winning |
| Uploads.UploadedFile | Client.php:293-296 | the file field carries the resolved path, the MIME type detected for it, and the given name or else the basename of the path |
| Uploads.WithUploadFile | Client.php:284-300 | empty arguments and an unresolvable path are refused; otherwise the field is a file with the resolved path, its detected MIME type, and the given name or else the path's basename; the array is the old one with only that key written |
| SingleClient.Execute | Client.php:308-341 | success exactly for a live handle whose option array is taken and whose transfer returns a body; success returns the body and resets everything; a stale handle changes nothing; any other failure keeps the prepared options and raises the transport's error code and text |
| SingleClient.HeaderOptionLines | Client.php:348-356 | the header option is the "name: value" lines in insertion order, set only when there are headers |
| SingleClient.CookieOptionPairs | Client.php:363-371 | the cookie option is the "name=value" pairs in insertion order joined by "; ", set only when there are cookies |
| SingleClient.CookiesAThenBPairs | Client.php:246-255 | worked example: cookies a=1 then b=2 render as "a=1", "b=2" in that order |
| SingleClient.CookieStringExample | Client.php:363-371 | worked example: cookies a=1 then b=2 give the cookie option "a=1; b=2" |
| SingleClient.ContentLengthRule | Client.php:92-95 | the empty body is refused at its Content-Length; otherwise both headers are set and the length reads back as the body's length |
| SingleClient.WithContentLength | Client.php:95 | the Content-Length write is refused, with the headers unchanged, exactly for the empty body; otherwise it holds the decimal length, which reads back as the length, and every other header is kept |
| SingleClient.RefusedExactlyWhenEmpty | Client.php:92-95 | the body step fails exactly for the empty body |
| SingleClient.BodySentAsPost | Client.php:92-93 | whatever the body, it is sent with a custom POST |
| SingleClient.ContentTypeKept | Client.php:94-95 | the Content-Type survives the Content-Length write, refused or not |
| SingleClient.LengthReadsBack | Client.php:95 | a non-empty body's Content-Length is its decimal length and reads back as that length |
| SingleClient.PostMergesThenFlags | Client.php:69-76 | post merges its argument over the post data with later values winning, sends it url-encoded when there is any, and always sets the POST flag |
| SingleClient.Client.constructor | Client.php:40-47 | a new client has the given url and nothing configured |
| SingleClient.Client.Create | Client.php:40-47 | a failed curl_init raises; otherwise a fresh, empty client on that handle |
| SingleClient.Client.SetRequiredText | Client.php:152-217 | an empty value is refused with nothing changed; otherwise exactly that one option is written |
| SingleClient.Client.SetUrl | Client.php:152-161 | the url option, under the same rule |
| SingleClient.Client.SetAcceptEncoding | Client.php:172-181 | the encoding option, under the same rule |
| SingleClient.Client.SetReferer | Client.php:190-199 | the referer option, under the same rule |
| SingleClient.Client.SetUserAgent | Client.php:208-217 | the user-agent option, under the same rule |
| SingleClient.Client.SetCurlOpt | Client.php:459-464 | writes exactly one option |
| SingleClient.Client.CloseSslVerify | Client.php:472-478 | turns off both verification options and keeps every other option |
| SingleClient.Client.AddHeader | Client.php:227-236 | an empty name or value is refused; otherwise the header is written |
| SingleClient.Client.AddCookie | Client.php:246-255 | an empty name or value is refused; otherwise the cookie is written |
| SingleClient.Client.AddPostData | Client.php:264-273 | an empty array is refused; otherwise it is merged over the post data |
| SingleClient.Client.AddUploadFile | Client.php:284-300 | the post data becomes what `WithUploadFile` yields, or stays as it was when that fails |
| SingleClient.Client.GenerateHeaderOption | Client.php:348-356 | the loop builds the header option of `WithHeaderOption` |
| SingleClient.Client.GenerateCookiesOption | Client.php:363-371 | the loop builds the cookie option of `WithCookieOption` |
| SingleClient.Client.ProcessingOptions | Client.php:327-341 | a stale handle raises with nothing changed; otherwise the options become the prepared ones and the merged array is handed over, an empty one never |
| SingleClient.Client.Clear | Client.php:378-387 | nothing configured and no url |
| SingleClient.Client.Exec | Client.php:308-319 | state and outcome are those of `Execute` |
| SingleClient.Client.Get | Client.php:55-60 | sets the GET flag, then `Execute` |
| SingleClient.Client.Post | Client.php:69-76 | `PostRequest`, then `Execute` |
| SingleClient.Client.SetBody | Client.php:92-95 | state and outcome of `PostBody` |
| SingleClient.Client.SendBody | Client.php:92-97 | a refused Content-Length raises with the partial configuration kept; otherwise `Execute` |
| SingleClient.Client.PostJson | Client.php:85-98 | an invalid body raises before anything is changed; otherwise the body is sent as JSON |
| SingleClient.Client.PostXml | Client.php:107-122 | never raises the invalid-XML error; the body is sent as XML |
| SingleClient.Client.PrepareUpload | Client.php:133-140 | the optional file field, the multipart body, a custom POST and the multipart Content-Type; a file that cannot be added changes nothing |
| SingleClient.Client.Upload | Client.php:133-143 | the prepared upload, then `Execute` |
| BatchModel.Cleared | AsyncClient.php:705-717 | the cleared state is coherent |
| BatchModel.Check | AsyncClient.php:643-653 | passes exactly for a registered id of a live curl handle; otherwise "Handler ID Non-existent" or "not initialized" for that id |
| BatchModel.SetOpt | AsyncClient.php:78 | writes one option of one handler; every other handler's options are unchanged |
| BatchModel.Activate | AsyncClient.php:79 | appends the handler's handle to the activation list, nothing else |
| BatchModel.SetText | AsyncClient.php:271-344 | an empty value is refused before the id is looked at; a bad id raises with nothing changed; otherwise exactly one option of that handler is written |
| BatchModel.AddHeaderTo | AsyncClient.php:355-365 | empty arguments are refused before the id; a bad id changes nothing; otherwise the header is written into that handler's headers only |
| BatchModel.AddCookieTo | AsyncClient.php:376-386 | the same rule over the handler's cookies |
| BatchModel.AddPostDataTo | AsyncClient.php:396-410 | an empty array is refused before the id; otherwise the handler's post data becomes the old entries with the new ones winning, and no other handler's data changes |
| BatchModel.AddUploadFileTo | AsyncClient.php:422-444 | empty arguments are refused before the id; any failure changes nothing; success stores what `WithUploadFile` yields under that handler |
| BatchModel.GetStep | AsyncClient.php:75-84 | a bad id changes nothing; otherwise the GET flag, one activation, and the url when one is given |
| BatchModel.PostStep | AsyncClient.php:94-108 | a bad id changes nothing; otherwise the data merged in, the url-encoded body when there is data, the POST flag and one activation |
| BatchModel.WithFieldsOption | AsyncClient.php:100-101 | the post data as the body option, url-encoded or multipart, only when there is any; other handlers keep their options |
| BatchModel.BodyStep | AsyncClient.php:127-130 | the custom POST, the body and the Content-Type are set; only the empty body is refused, at its Content-Length; the length header reads back as the body's length |
| BatchModel.LengthHeader | AsyncClient.php:130 | the Content-Length header is refused exactly for the empty body, and the Content-Type already set is kept |
| BatchModel.WithHeader | AsyncClient.php:129 | an accepted header write sets that header |
| BatchModel.PostJsonStep | AsyncClient.php:118-135 | a bad id changes nothing; invalid JSON clears the whole client; otherwise the body and both headers, and one activation unless the body is empty |
| BatchModel.PostXmlStep | AsyncClient.php:145-164 | never raises the invalid-XML error; a bad id changes nothing; otherwise one activation first, then the body and both headers; only the empty body is refused |
| BatchModel.MultipartBody | AsyncClient.php:186-189 | the multipart body when there is post data, then a custom POST, on that handler's options only |
| BatchModel.UploadRest | AsyncClient.php:186-191 | the options of `MultipartBody`, the multipart Content-Type added to that handler's headers only, and one activation |
| BatchModel.UploadData | AsyncClient.php:180-184 | the handler's post data, or, when a file is requested, exactly what `WithUploadFile` makes of it (earlier fields kept); fails with file-not-found exactly when a requested path does not resolve |
| BatchModel.UploadStep | AsyncClient.php:176-195 | fails exactly for a bad id or a requested file whose path does not resolve, changing nothing; on success the post data is `UploadData`, the multipart body is set when there is any, a custom POST and the multipart Content-Type are added, the handler is activated once, and every other handler is unchanged |
| BatchModel.CreateStep | AsyncClient.php:204-217 | a failed curl_init clears the client; a non-resource is refused; otherwise the handle is registered under its own number and that number is returned, unless the given url is refused |
| BatchModel.EasyOptions | AsyncClient.php:491-494 | a handler's option array holds all its own options, over the defaults |
| BatchModel.Setup | AsyncClient.php:489-497 | the per-handler setup fails only with a missing id, a stale handle or the transport's refusal |
| BatchModel.SetupPasses | AsyncClient.php:489-516 | the setup passes exactly when every handler is live and its non-empty option array is taken |
| BatchModel.SetupNeverMissesRegistered | AsyncClient.php:489-490 | over registered ids the setup never reports a missing id |
| BatchModel.Settled | AsyncClient.php:229-231 | the perform loop stops on the first status that does not ask to be called again |
| BatchModel.Prepare | AsyncClient.php:485-486 | the header and cookie passes change only the options |
| BatchModel.AddToMulti | AsyncClient.php:467-498 | passes exactly when every handler is set up and every activated handle attaches; a stale handle keeps the prepared state; any other failure clears |
| BatchModel.ExecStep | AsyncClient.php:225-239 | succeeds exactly when every handler is set up, every activated handle attaches and the perform loop settles on OK, keeping the prepared state; every failure but a stale handle clears the client |
| BatchModel.Rounds | AsyncClient.php:589-595 | the select loop consumes answers up to and including the first that ends it |
| BatchModel.GetEasyHandlerIdByMultiInfoRead | AsyncClient.php:681-698 | a record without a handle is refused; otherwise its handle's own number |
| BatchModel.Completion | AsyncClient.php:612-631 | done with result 0 delivers the content with error number 0; otherwise null content, error number result ?? msg ?? -2, and "Unknown Error." exactly for -2 |
| BatchModel.Drain | AsyncClient.php:606-634 | fails exactly when some record has no handle; the entry and record maps keep equal key sets |
| BatchModel.Backfill | AsyncClient.php:567-574 | existing entries are kept; every registered id gets an entry, null and with the never-sent record when it had none |
| BatchModel.Materialize | AsyncClient.php:562-579 | runs once; changes only the results and the two flags; afterwards every registered id has an entry |
| BatchModel.ResultOf | AsyncClient.php:248-261 | an unknown id raises; success exactly for a stored error number 0, returning the stored content; otherwise raises with the stored message |
| BatchProperties.UnknownIdChangesNothing | AsyncClient.php:643-646 | every configuration call and verb given an unregistered id raises "Handler ID Non-existent" and changes nothing |
| BatchProperties.ClearedKnowsNoId | AsyncClient.php:705-717 | after clear no id is registered and nothing is configured or collected |
| BatchProperties.RepeatedHeaderKeepsLast | AsyncClient.php:355-365 | a header set twice keeps only the second value |
| BatchProperties.HeaderWriteTouchesOneEntry | AsyncClient.php:355-365 | other handlers' headers and the handler's other headers are unchanged |
| BatchProperties.RepeatedCookieKeepsLast | AsyncClient.php:376-386 | a cookie set twice keeps only the second value |
| BatchProperties.HeaderPassOutside | AsyncClient.php:523-536 | the header pass does not touch ids it does not visit |
| BatchProperties.HeaderPassAt | AsyncClient.php:523-536 | each handler with headers gets exactly its own "name: value" lines; one without keeps its options |
| BatchProperties.CookiePassOutside | AsyncClient.php:543-555 | the cookie pass does not touch ids it does not visit |
| BatchProperties.CookiePassAt | AsyncClient.php:543-555 | a handler with cookies gets the cookie lines of every handler up to and including itself, joined by "; " |
| BatchModel.CookiePassStep | AsyncClient.php:545-552 | one more handler appends its lines to the buffer, and only a handler with cookies gets the whole buffer so far as its option |
| BatchProperties.TwoCookieHandlersLines | AsyncClient.php:546-548 | worked example: the cookie buffer after handlers holding a=1 and b=2 is "a: 1", "b: 2" |
| BatchProperties.CookiesLeakAcrossHandlers | AsyncClient.php:545-552 | worked example: handler 2 is sent "a: 1; b: 2", including handler 1's cookie |
| BatchProperties.CompletionDelivers | AsyncClient.php:612-626 | only a done-and-OK record delivers content, with error number 0; -2 arises exactly from a -2 or from a record with neither field |
| BatchProperties.ZeroResultWithoutDone | AsyncClient.php:612-626 | a record with result 0 but not done stores null with error number 0, which getResult returns as a success |
| BatchProperties.DrainOutside | AsyncClient.php:606-634 | ids no record names keep their entries |
| BatchProperties.DrainLastRecordWins | AsyncClient.php:606-634 | a handler's entry is what its last record says |
| BatchProperties.NeverExecuted | AsyncClient.php:567-574 | a registered handler no record names gets null and the -1 never-sent record, and getResult raises with its message |
| BatchProperties.MaterializeOnce | AsyncClient.php:564-577 | a second materialization changes nothing, and no registered id is then unknown |
| BatchClient.HeaderLines | AsyncClient.php:527-528 | the loop renders every entry as "name: value", in insertion order |
| BatchClient.AsyncClient.constructor | AsyncClient.php:52-65 | a new client has no handler, nothing configured and nothing collected |
| BatchClient.AsyncClient.Create | AsyncClient.php:52-65 | a failed multi init and a refused pipelining option raise; otherwise a fresh, empty client |
| BatchClient.AsyncClient.IsValidHandlerId | AsyncClient.php:643-653 | answers `Check` on the registry |
| BatchClient.AsyncClient.Clear | AsyncClient.php:705-717 | the state becomes `Cleared` |
| BatchClient.AsyncClient.SetRequiredText | AsyncClient.php:271-344 | state and outcome of `SetText` |
| BatchClient.AsyncClient.SetUrl | AsyncClient.php:271-282 | `SetText` on the url option |
| BatchClient.AsyncClient.SetAcceptEncoding | AsyncClient.php:294-304 | `SetText` on the encoding option |
| BatchClient.AsyncClient.SetReferer | AsyncClient.php:314-324 | `SetText` on the referer option |
| BatchClient.AsyncClient.SetUserAgent | AsyncClient.php:334-344 | `SetText` on the user-agent option |
| BatchClient.AsyncClient.AddHeader | AsyncClient.php:355-365 | state and outcome of `AddHeaderTo` |
| BatchClient.AsyncClient.AddCookie | AsyncClient.php:376-386 | state and outcome of `AddCookieTo` |
| BatchClient.AsyncClient.AddPostData | AsyncClient.php:396-410 | state and outcome of `AddPostDataTo` |
| BatchClient.AsyncClient.AddUploadFile | AsyncClient.php:422-444 | state and outcome of `AddUploadFileTo` |
| BatchClient.AsyncClient.CreateHandler | AsyncClient.php:204-217 | state and outcome of `CreateStep` |
| BatchClient.AsyncClient.SetOption | AsyncClient.php:78 | the state of `SetOpt`: one option of one handler |
| BatchClient.AsyncClient.ActivateHandler | AsyncClient.php:79 | the state of `Activate`: the handle appended to the activation list |
| BatchClient.AsyncClient.SetFieldsOption | AsyncClient.php:100-101 | the state of `WithFieldsOption` |
| BatchClient.AsyncClient.Get | AsyncClient.php:75-84 | state and outcome of `GetStep` |
| BatchClient.AsyncClient.Post | AsyncClient.php:94-108 | state and outcome of `PostStep` |
| BatchClient.AsyncClient.SetBody | AsyncClient.php:127-130 | state and outcome of `BodyStep` |
| BatchClient.AsyncClient.PostJson | AsyncClient.php:118-135 | state and outcome of `PostJsonStep` |
| BatchClient.AsyncClient.PostXml | AsyncClient.php:145-164 | state and outcome of `PostXmlStep` |
| BatchClient.AsyncClient.Upload | AsyncClient.php:176-195 | state and outcome of `UploadStep`: failure exactly for a bad id or an unresolvable requested file, otherwise the file field, multipart body, custom POST, Content-Type and one activation on that handler only |
| BatchClient.AsyncClient.FinishUpload | AsyncClient.php:186-191 | the state of `UploadRest` |
| BatchClient.AsyncClient.GenerateEasyHeaderOption | AsyncClient.php:523-536 | the loop leaves the options of `HeaderPass` over the registered ids |
| BatchClient.AsyncClient.GenerateEasyCookiesOption | AsyncClient.php:543-555 | the loop leaves the options of `CookiePass` over the registered ids |
| BatchClient.AsyncClient.SetEasyOptions | AsyncClient.php:507-516 | an empty or accepted array changes nothing; a refused one clears the client and raises the easy error |
| BatchClient.AsyncClient.ProcessingEasyOptions | AsyncClient.php:483-498 | returns the outcome of `Setup` over the prepared options, clearing only on a refused array |
| BatchClient.AsyncClient.ConfigureHandlers | AsyncClient.php:489-497 | the loop returns the outcome of `Setup` |
| BatchClient.AsyncClient.AddEasyToMulti | AsyncClient.php:467-476 | state and outcome of `AddToMulti` |
| BatchClient.AsyncClient.Exec | AsyncClient.php:225-239 | state and outcome of `ExecStep` |
| BatchClient.AsyncClient.Select | AsyncClient.php:586-599 | runs at most once and consumes `Rounds` answers |
| BatchClient.AsyncClient.GenerateResultsContentWithMultiInfoRead | AsyncClient.php:606-634 | the loop leaves the maps and outcome of `Drain` |
| BatchClient.AsyncClient.GenerateResultsContent | AsyncClient.php:562-579 | state and outcome of `Materialize` |
| BatchClient.AsyncClient.BackfillResults | AsyncClient.php:567-574 | the loop leaves the maps of `Backfill` |
| BatchClient.AsyncClient.GetResult | AsyncClient.php:248-261 | materializes, then returns `ResultOf` for the id |
| BatchClient.AsyncClient.GetResultsErrorInfoByHandler | AsyncClient.php:453-460 | the stored error record exactly when there is one, without collecting results |

## Left out

- libcurl itself is not modelled. Its answers are inputs: option acceptance, error numbers,
  attach and perform statuses, select answers, the completion queue, transfer bodies.
  `curl_reset`, `curl_multi_remove_handle`, `curl_multi_select` and its blocking are effects
  on the transport only.
- `close` and the destructors release transport resources and are not modelled.
- In the constructor, the multi handle's pipelining option is reduced to whether it is
  accepted.
- The XML parse is not modelled. Its result is unused because the guard never fires.
- `json_decode` validity is an input, `isJson` for the single client and `decodes` for the
  batch step. So the model does not know that an empty string is never valid JSON.
- `http_build_query` is not computed. A url-encoded body is kept as the fields it is built
  from (`UrlEncoded`), and a multipart body likewise (`Multipart`).
- `realpath` and `finfo` MIME detection are inputs (`FileSystem`). `basename` is modelled
  for resolved paths only; a trailing '/' gives the empty name.
- Exception message texts are not modelled. The errors are kinds carrying the codes and
  transport texts the source puts in them. `getResult`'s message is modelled only as the
  stored `err_msg`.
- Handles are PHP 7 resources with a number, a type and an open flag. Under PHP 8 they are
  `CurlHandle` objects, and `is_resource` and the id extraction behave differently.
- `clear()` sets the handler registry to `null`. The model uses the empty registry, which
  every later lookup treats the same way.
- OptionMap, Resolve, EasyOptions: an option set is an unordered map from option to value, so
  the order in which `curl_setopt_array` applies options (PHP array insertion order) is not
  captured; only the final value of each option is.
- `array_merge` renumbers integer keys. Post data is modelled with string keys only.
- `strlen` counts bytes. The model counts characters.
- `preg_match` returning `false` (a PCRE failure) is not modelled.
- Exec and the select loop take perform and select answers that eventually end the loop
  (`Settles`, `Stops`). A transport that asks to be called again forever is excluded.
- BatchModel.Delivered: a completion for an id that is not registered is modelled as
  delivering no content (null). In the source the content call receives an undefined
  entry.
